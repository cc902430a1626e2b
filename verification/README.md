# profound-archive: the re-index pipeline, the search pages and the test chatbot in Dafny

This project models the logic of the profound-archive site. The site is a
search and chatbot front end over a collection of near-death-experience
video transcripts.

- **Re-index script** (`scripts/index-data.ts`, and its older compiled
  variant `scripts/index-data.js`). It reads the video table `nde_vids` and
  the transcript-segment table `nde_punctuated_embeddings` from Supabase.
  It joins every segment to its video and bulk-imports the resulting
  documents into a Typesense collection `videos`.
- **Keyword/concept search page** (`src/app/search/page.tsx`) and its result
  card (`src/components/search-result-card.tsx`). The page sends a search to
  a webhook, groups the rows it gets back by video, pages through further
  results, and formats timestamps, view counts and dates.
- **Faceted search page** (`src/app/search2/page.tsx`). It keeps a map of
  facet filters that the checkboxes toggle.
- **Search endpoint** (`src/app/api/search/route.ts`). It validates the
  request body against a zod schema with defaults and answers from a
  placeholder query.
- **Test chatbot** (`src/app/chat-test/page.tsx`). It keeps a message list,
  picks the reply text out of the webhook's JSON, words the errors, and turns
  reference lines `[n] title (url)` into links.

Modules follow the source files:

| Module | Models |
|---|---|
| `IndexData` | `index-data.ts` |
| `IndexDataJs` | `index-data.js` |
| `SearchPage` | `search/page.tsx` |
| `ResultCard` | `search-result-card.tsx` |
| `SearchV2` | `search2/page.tsx` |
| `SearchRoute` | `api/search/route.ts` |
| `ChatTest` | `chat-test/page.tsx` |
| `Formatting` | `formatTimestamp` and `formatViewCount`, whose text is the same on the search page and the card, so they are defined once |
| `Text` | the JavaScript string built-ins the core uses |
| `Seqs` | the array built-ins the core uses |
| `Json` | parsed JSON values and truthiness |
| `Wrappers` | `Option` and `Result` |

Code whose form is imperative is written as imperative Dafny:

- `fetchAll` is the `while` loop `IndexData.FetchAll`, proved against the recursive specification `IndexData.Collect`.
- `groupResultsByVideo` is the loop `SearchPage.GroupResultsByVideo`, with the invariant `Grouping`.
- The three pages are classes whose fields are the React state variables, with one method per handler:
  - `SearchPage.SearchSession`
  - `SearchV2.SearchV2Session`
  - `ChatTest.ChatSession`

Code that only computes a value is written as functions with lemmas beside them.

Every outside service is a parameter:

- **Supabase.** A page read `fetch(from, to)` returns rows or an error. A ghost `table` says which finite table the successful reads come from.
- **Typesense.** The outcome of the collection create, and a function from the documents to the import outcome.
- **Webhooks.** The reply they give.
- **Dates.** `new Date(s).getTime()` is `parseMs: string -> Option<int>`, with `None` for an invalid date. `toISOString` is `isoAt`.
- **Locale formatting.** `toLocaleDateString` is `localeDate`, and the grouping `toLocaleString` is `group`.
- **Environment.** The environment variables, `Date.now()` and `crypto.randomUUID()`.

Where the code and the written design disagree, the model follows the code:

- **Unparsable dates.** An unparsable `date` gives `NaN` in the document (`IndexData.DateSeconds`), not 0. Only a missing or empty date gives 0.
- **The JS variant.** `index-data.js` reads each table with one unpaginated select, not with pages.

## Model

| member | source | states |
|---|---|---|
| IndexData.Window | scripts/index-data.ts:14-17 | `.range(from, to)` selects the inclusive rows from..to, cut at the end of the table, so at most to − from + 1 rows |
| IndexData.FetchAll | scripts/index-data.ts:6-31 | The loop returns exactly `Collect` from page 0: page k asks for rows k·1000 .. k·1000+999, an empty or short page ends it, and the first failing page ends it with "Error fetching <table>: …". On success the result is the whole table |
| IndexData.CollectIsRest | scripts/index-data.ts:13-28 | A successful read from page k is exactly the table from row k·1000 on: the concatenation of the pages in request order, every row once |
| IndexData.CollectFailure | scripts/index-data.ts:19 | A failed read carries "Error fetching <table>: " plus the message of a failing page request at or after the start page, and no rows |
| IndexData.CollectSucceeds | scripts/index-data.ts:13-28 | When no request fails, the read terminates successfully on any finite table |
| IndexData.CollectReliable | scripts/index-data.ts:6-31 | When no request fails, `fetchAll` returns the whole table |
| IndexData.VideoMapLastWins | scripts/index-data.ts:80 | Every video id that occurs is a key of `videoMap`, and each key maps to the last row carrying it |
| IndexData.DateSeconds | scripts/index-data.ts:100 | A missing or empty date gives 0 and an unparsable date gives NaN. Otherwise the result is the floor of ms/1000: seconds·1000 ≤ ms < seconds·1000 + 1000 |
| IndexData.Documents | scripts/index-data.ts:91-105 | One document per kept segment, in order, built from that segment and its video |
| IndexData.TransformSound | scripts/index-data.ts:89-104 | Every document comes from a segment whose video is in the map. Content, start time and id come from the segment; title, channel, isNde, thumbnail and url come from the video; the view count is `viewCount \|\| 0` and the date is normalised |
| IndexData.TransformAppend | scripts/index-data.ts:89-91 | The join works segment by segment over a concatenation, so input order is kept |
| IndexData.TransformOne | scripts/index-data.ts:90-92 | A segment gives exactly one document when its video is known and none otherwise |
| IndexData.TransformKeepsAll | scripts/index-data.ts:90 | No segment is dropped exactly when every segment's video is in the map |
| IndexData.CheckImport | scripts/index-data.ts:110-121 | A thrown import is reported, not rethrown. "All indexed" holds exactly when every result succeeded. Otherwise the failed count is the number of `success === false` results (it and the succeeded count add up to all results), and the entry shown is a failed one |
| IndexData.FirstFailureIsEarliest | scripts/index-data.ts:112-115 | The failure shown (`failed[0]`) is the earliest failing result |
| IndexData.RunIndexing | scripts/index-data.ts:33-122 | With an incomplete environment it throws the fixed message before any service call. Otherwise it deletes and then creates the collection; a failed create is thrown. A failed read of either table is thrown, and the embeddings are not read after a failed video read. Otherwise the joined documents are upserted in batches of 2000 and the import report is the outcome |
| IndexDataJs.DocsOrNull | scripts/index-data.js:88-105 | One entry per segment, document or null |
| IndexDataJs.JoinJsMatchesTransform | scripts/index-data.js:88-106 | Mapping to document-or-null and dropping the nulls gives exactly the filter-then-map join of index-data.ts: the same documents in the same order |
| IndexDataJs.RunJs | scripts/index-data.js:18-115 | Throws the fixed message exactly when the environment is incomplete, before any service call. A failed create is not caught: its error is thrown right after the delete and create. A failed select on either table is thrown with "Supabase fetch error (<table>): …". No embeddings ends the run exactly then, and that run makes no import. Otherwise the join is imported with action `create` in batches of 100, and an import error is logged, not thrown |
| SearchRoute.Validate | src/app/api/search/route.ts:63-83 | Fails exactly for a non-object body or one with invalid fields, and names those fields in schema order. An accepted body has a non-empty term, a positive whole limit, a non-negative whole offset and a threshold in [0, 1] |
| SearchRoute.ValidateRejects | src/app/api/search/route.ts:64-65 | An empty term, or a search type other than "exact"/"semantic", is rejected and named |
| SearchRoute.ValidateDefaults | src/app/api/search/route.ts:66-70 | Missing optional fields become "viewCount", DESC, 12, 0 and 0.5 |
| SearchRoute.ValidateEncode | src/app/api/search/route.ts:63-71 | Validation accepts an encoded record exactly when the record satisfies the schema's rules, and then gives it back unchanged |
| SearchRoute.QueryDatabase | src/app/api/search/route.ts:6-59 | The answer is empty exactly when offset > 0. A row carries a similarity exactly when the search is semantic |
| SearchRoute.Post | src/app/api/search/route.ts:74-98 | A body that is not JSON gives 500 with the error, and only that gives 500. An invalid body gives 400, and only that gives 400. Otherwise 200 with the query's rows for the validated parameters |
| SearchRoute.PostLaterPage | src/app/api/search/route.ts:54-56 | A valid request for any page after the first gets an empty 200 answer |
| SearchPage.FormatDate | src/app/search/page.tsx:176-180 | Null or "" gives "Date unavailable". An unparsable string reaches `toLocaleDateString` and gives "Invalid Date". Otherwise the locale date |
| SearchPage.FirstIdsSpec | src/app/search/page.tsx:231-245 | The group order lists exactly the ids that occur, each once |
| SearchPage.FirstIdsPrefix | src/app/search/page.tsx:233-245 | The group order only grows at the end: ids first seen earlier come first |
| SearchPage.GroupingNew | src/app/search/page.tsx:234-245 | A row of an unseen video starts its group at the end of the order, with that row's metadata |
| SearchPage.GroupingKnown | src/app/search/page.tsx:247-251 | A row of a seen video appends its transcript to that video's group only |
| SearchPage.GroupResultsByVideo | src/app/search/page.tsx:230-255 | One group per distinct video id, in order of first appearance. Each group has the metadata of that video's first row and the transcripts of all its rows in input order |
| SearchPage.GroupSizesSum | src/app/search/page.tsx:247-251 | The transcript counts of the groups add up to the number of rows |
| SearchPage.WireRequest | src/app/search/page.tsx:78-94 | keyword → "exact", concept → "semantic"; "descending" → DESC, anything else → ASC; limit 12; the term trimmed; the given offset; the sort column and the similarity slider passed on unchanged |
| SearchPage.WireRequestAccepted | src/app/search/page.tsx:86-94 | The body the page sends is one the endpoint's schema accepts unchanged, whenever the term is not blank and the slider is in [0, 1] |
| SearchPage.SearchSession.constructor | src/app/search/page.tsx:38-49 | The initial state of the page |
| SearchPage.SearchSession.SetSearchType | src/app/search/page.tsx:51-57 | Choosing keyword sorts by "viewCount", concept by "similarity" |
| SearchPage.SearchSession.HandleSearch | src/app/search/page.tsx:59-112 | A blank term only sets "Please enter a search term" and sends nothing. Otherwise: offset 0 and searched; the request goes out only when the webhook is configured; an answer replaces the results, and `hasMoreResults` is off exactly when the page is shorter than 12; a failure clears the results and sets the error. The offset stays a multiple of 12 |
| SearchPage.SearchSession.HandleLoadMore | src/app/search/page.tsx:114-162 | Asks for offset + 12. An answer is appended after the existing results, the offset advances by exactly 12, and `hasMoreResults` is off exactly when the page is short. A failure only sets the error and keeps results and offset |
| ResultCard.FormatDateMatchesPage | src/components/search-result-card.tsx:44-51 | The card's `formatDate` agrees with the page's except on an unparsable date, where the card says "Invalid date" and the page "Invalid Date" |
| ResultCard.OrElse | src/components/search-result-card.tsx:106 | A missing or empty thumbnail (or summary) is replaced by the fallback, and the result is never empty |
| ResultCard.Moments | src/components/search-result-card.tsx:147-172 | One moment per transcript, in order |
| ResultCard.Render | src/components/search-result-card.tsx:92-180 | The render throws exactly when the video has no transcripts. Otherwise: the thumbnail is the video's or "/placeholder.svg"; the summary is the video's or "No summary available."; title and channel are the video's; the views and date labels are `formatViewCount` and `formatDate` of the video; there is one moment per transcript; and the header links to the first moment |
| ResultCard.RenderMoments | src/components/search-result-card.tsx:147-169 | Each moment links to its own transcript's second and is labelled with a time that reads back as that second. A similarity is shown exactly in concept mode for a transcript that has one |
| ResultCard.RenderNumericViews | src/components/search-result-card.tsx:53-56 | A non-string view count shows "N/A views" |
| Formatting.TimestampDecomposition | src/app/search/page.tsx:164-168 | h·3600 + m·60 + s = r, m < 60, s < 60, and h > 0 exactly from one hour on |
| Formatting.TimestampRoundTrip | src/components/search-result-card.tsx:33-42 | The label has three fields from one hour on and two below, every field after the first has two digits, and the label reads back as the seconds |
| Formatting.VideoLinkRoundTrip | src/components/search-result-card.tsx:153 | `url&t=<n>s` opens the video at exactly second n |
| Formatting.Digits | src/components/search-result-card.tsx:57 | `replace(/[^0-9]/g, '')` leaves only digits |
| Formatting.ViewCountCases | src/components/search-result-card.tsx:53-72 | A non-string gives "N/A views". A string without digits is returned unchanged. Otherwise the number, plain or grouped, followed directly by " views" and nothing else |
| Formatting.ViewCountDropsLeadingZeros | src/components/search-result-card.tsx:61-69 | Up to 9999 the count is the canonical decimal of the digits: leading zeros are gone |
| Formatting.ViewCountIdempotent | src/app/search/page.tsx:182-206 | Formatting a formatted count gives it back, when the locale grouping only adds separators |
| SearchV2.Without | src/app/search2/page.tsx:106 | `filter(v => v !== value)`: every occurrence of the value is removed, and exactly the other values stay |
| SearchV2.WithoutAppend | src/app/search2/page.tsx:106 | Removal works piece by piece over a concatenation, so the values that stay keep their order and their repetitions |
| SearchV2.Toggle | src/app/search2/page.tsx:99-117 | Other facets are unchanged. A selected value is removed: the facet's list becomes exactly the old list without it, and a facet left empty is deleted. An unselected value is appended at the end. A facet is never left with an empty list |
| SearchV2.ToggleTwice | src/app/search2/page.tsx:99-117 | Ticking an unticked box and unticking it again restores the filter map |
| SearchV2.CardDateRoundTrip | src/app/search2/page.tsx:204 | The card's ISO date of `date * 1000` reads back to the document's seconds |
| SearchV2.Documents | src/app/search2/page.tsx:77 | The results are the hits' documents, in order |
| SearchV2.SearchV2Session.constructor | src/app/search2/page.tsx:45-51 | The initial state, with an empty filter map |
| SearchV2.SearchV2Session.HandleFilterChange | src/app/search2/page.tsx:99-117 | The filter map becomes `Toggle` of the old one, and no facet has an empty list |
| SearchV2.SearchV2Session.PerformSearch | src/app/search2/page.tsx:54-92 | A blank term shows "Search term required" and sends nothing. Otherwise it sends the term and the filters; an answer sets the results, facets and hit count; a failure shows "Search Failed" and keeps them; loading ends and the page counts as searched |
| ChatTest.ReplyContent | src/app/chat-test/page.tsx:59-70 | The test order. For an object: `output`, then `response`, then `message`, each if truthy, else the apology. For an array: a truthy `[0].output`, else the apology. A string is returned as itself. A number or boolean gets the apology. The TypeError cases (null data, null first item) are exactly the ones that give no reply. An empty reply only for the empty string |
| ChatTest.OutputWins | src/app/chat-test/page.tsx:60-63 | A truthy `output` is chosen, on an object and on a one-element array |
| ChatTest.ResponseBeforeMessage | src/app/chat-test/page.tsx:64-67 | `response` is chosen over `message` when `output` is falsy |
| ChatTest.ClassifyError | src/app/chat-test/page.tsx:81-94 | "WEBHOOK_NOT_CONFIGURED" gives the configuration text, then "Failed to fetch", then "NetworkError", and otherwise the message verbatim |
| ChatTest.AssistantContent | src/app/chat-test/page.tsx:33-101 | A missing or placeholder webhook and a non-OK status are errors (the latter "HTTP <status>: <text>"). A thrown error is classified. A reply gives the chosen content |
| ChatTest.ChatSession.constructor | src/app/chat-test/page.tsx:9-16 | Empty messages and input, not loading, and the session id |
| ChatTest.ChatSession.BeginSend | src/app/chat-test/page.tsx:26-31 | Blank text or a send in flight changes nothing. Otherwise the trimmed text is appended as a user message and loading starts |
| ChatTest.ChatSession.FinishSend | src/app/chat-test/page.tsx:33-104 | The request goes out only with a configured webhook, and its `chatInput` is the user message `BeginSend` appended. Exactly one assistant message is appended and loading ends. Messages keep alternating user/assistant |
| ChatTest.ChatSession.HandleSend | src/app/chat-test/page.tsx:107-110 | Starts a send of the input, and the input is cleared even when the send is refused |
| ChatTest.DigitRun | src/app/chat-test/page.tsx:116 | `\d+` takes the longest run of digits |
| ChatTest.UrlAt | src/app/chat-test/page.tsx:116 | `\((https?:\/\/[^\s)]+)\)` captures a URL that starts with http:// or https:// and holds no white space or `)` |
| ChatTest.FirstTail | src/app/chat-test/page.tsx:116 | The lazy `.*?` stops at the first place where the rest of the pattern matches |
| ChatTest.Leftmost | src/app/chat-test/page.tsx:123 | `match` finds the leftmost start where the pattern matches |
| ChatTest.ParseReference | src/app/chat-test/page.tsx:116-127 | A match gives a non-empty digit number, an http(s) URL without white space or `)`, and a title trimmed at both ends with no line terminator. A line without `[` never matches |
| ChatTest.RenderLine | src/app/chat-test/page.tsx:122-145 | Both directions: a line renders as the reference it parses to exactly when its trimmed form starts with `[` and it matches. Otherwise it is shown as it is |
| ChatTest.ReferenceRoundTrip | src/app/chat-test/page.tsx:116-142 | "[n] title (url)" written the way the chatbot writes it renders as a link with exactly that number, title and URL. The condition on the parts is the shape the pattern captures: a digit number; a title trimmed at both ends, with no line terminator and no `(` that opens an http:// or https:// scheme; a URL of a scheme and at least one more character, with no white space or `)` |
| ChatTest.ReferenceWithParentheses | src/app/chat-test/page.tsx:116-142 | A title with parentheses, "A (1)", and the shortest URL, "http://x", make a line that renders as that reference |
| ChatTest.RefLineMatches | src/app/chat-test/page.tsx:116-123 | The pattern matches such a line at its first character, with its number, title and URL |
| ChatTest.RenderMessageContent | src/app/chat-test/page.tsx:112-121 | One paragraph per "\n\n" piece and one line per "\n" piece |
| ChatTest.RenderParagraph | src/app/chat-test/page.tsx:117-146 | Each "\n" piece is rendered by `RenderLine`, in order |
| ChatTest.PlainContentKept | src/app/chat-test/page.tsx:112-146 | Without reference lines nothing is lost: joining the lines with "\n" and the paragraphs with "\n\n" gives the content back |
| Text.Trim | src/app/chat-test/page.tsx:27 | `trim()` leaves no white space at either end |
| Text.TrimMiddle | src/app/chat-test/page.tsx:29 | `trim()` keeps a contiguous middle part and removes only white space around it |
| Text.BlankIffAllSpace | src/app/search/page.tsx:60 | `!s.trim()` holds exactly when every character is white space |
| Text.NatToString | src/app/search/page.tsx:171 | `toString()` of a count: at least one digit, a leading zero only for 0, one digit exactly below 10 |
| Text.ParseNatToString | src/components/search-result-card.tsx:61 | `parseInt` reads back a printed number |
| Text.NatToStringOfParse | src/components/search-result-card.tsx:61-69 | Printing a parsed digit run without a leading zero gives it back |
| Text.PadStartKeeps | src/app/search/page.tsx:171 | `padStart` only adds fill characters in front |
| Text.Pad2Digits | src/app/search/page.tsx:171 | Below 100, `padStart(2, "0")` gives exactly two digits that still denote the number |
| Text.IndexOf | src/app/chat-test/page.tsx:86 | `includes` finds the first occurrence, or reports none |
| Text.SplitJoin | src/app/chat-test/page.tsx:113 | Joining the pieces of `split` with the same separator restores the text |
| Text.SplitPiecesFree | src/app/chat-test/page.tsx:117 | No piece of `split` contains the separator |
| Seqs.Filter | scripts/index-data.ts:90 | `filter` keeps exactly the passing elements, nothing else |
| Seqs.FilterAppend | scripts/index-data.ts:90 | `filter` over a concatenation is the concatenation of the filters: order is kept |
| Seqs.FilterComplement | scripts/index-data.ts:112 | The failed and succeeded results add up to all results |
| Seqs.FilterFirst | scripts/index-data.ts:115 | The first kept element is the earliest passing one |
| Seqs.Somes | scripts/index-data.js:106 | `filter(doc => doc !== null)` keeps exactly the present values |
| Seqs.First | src/app/chat-test/page.tsx:116 | The least position in a range where a test holds, or none |

## Left out

- **Rendering.** JSX, styling and the components, including the
  `highlightSearchTerm` helpers of the search page and the card. Those split
  the text with a case-insensitive RegExp built from the term and test the
  parts with a stateful global `regex.test`. Only what the markup shows is
  modelled: links, labels and fallbacks.
- **Services and I/O.** Supabase, Typesense, the webhooks, `console` logging,
  timeouts and the client set-up (hosts, ports, the collection schema) are
  left out. Their answers are parameters.
- **The collection delete.** A failed delete is caught and changes nothing,
  so its outcome is not a parameter. The trace records that the delete was
  made.
- **Rounding start times.** `Math.round` of the floating-point `start_time` is
  not modelled. Timestamps and links take the already rounded, non-negative
  seconds. Start times are otherwise copied as `real`.
- **Similarity display.** `similarity.toFixed(2)` is not modelled: the card
  shows the similarity value itself.
- **The slider.** `Number.parseFloat` of the slider is not modelled.
- **Date and locale functions.** `new Date`, `getTime`, `toISOString`,
  `toLocaleDateString` and `toLocaleString` are uninterpreted function
  parameters. Their own behaviour is not modelled.
- **The engine's TypeError text.** The message JavaScript gives for reading a
  property of `null` in the chatbot is the parameter `typeError`.
- **Re-running effects.** `useEffect` re-runs are left out.
  - Search2 re-runs the search after every filter change. The model leaves
    that call to the caller, who invokes `PerformSearch` after
    `HandleFilterChange`.
  - The search page's type → sort effect is folded into `SetSearchType`.
  - The chatbot's banner flag `webhookConfigured` is display state and is
    left out. The per-send check is modelled.
- **Asynchronous interleaving.** The search page handlers and search2's
  `performSearch` are modelled as running to completion with their reply
  given. `sendMessage` is split at its `await` into `BeginSend` and
  `FinishSend`, so a second send can be attempted in between.
- **The search2 card prop.** The search2 page passes its card object as
  `result=` while the card reads `video`. `SearchV2.CardPropsOf` models the
  object built, and its connection to `ResultCard.Render` is not modelled.
- **Big view counts.** `parseInt` of more than 2^53 digits' worth of value
  rounds in JavaScript. `Text.ParseDigits` is exact.
- **Field width.** The `int32` width of the `viewCount` field is not
  modelled: counts are unbounded integers.
- **Malformed answers.** A parsed search answer without `hits` or
  `facet_counts` (which would throw in search2), and non-array webhook data on
  the search page, are not modelled.
- **Validation details.** `SearchRoute.Validate` reports the invalid field
  names, not the `flatten()` text of zod's error.
- **The timestamp parser.** `Formatting.ParseTimestamp` and
  `Formatting.LinkSeconds` are the model's own readers, written to state the
  round trips. The source has no parser for its labels.
- ChatTest.RenderMessageContent: states only the shape of the result (one
  entry per piece). What each line becomes is stated by
  `ChatTest.RenderParagraph` and `ChatTest.RenderLine`.
- ChatTest.ReferenceRoundTrip: excludes a title holding a `(` followed by
  http:// or https:// even where no complete `(url)` group follows it, which
  the lazy title would pass over. Stating the exact condition would mean
  stating the whole pattern again.
- IndexData.CollectReliable: "the whole table" rests on two premises of the
  `fetch` parameter. First, the server returns every row of a requested
  range up to 1000, so its row cap is at least the page size. Second, every
  `.range` request sees the same row order, although index-data.ts:14-17
  asks for no `.order(...)`. A smaller cap would end the loop early. A
  changing order could repeat or skip rows. Neither is modelled.
