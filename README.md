# Session bootstrap and paginated scrape of a business-registry search API

This project models the decision logic of a small scraper for a demo business-registry site. The site's JSON search API (`/api/search`) accepts only requests that carry an `x-search-session` header, and that value can only be obtained from a real browser session.

- `bootstrap_session.py` gets the session value. It uses a cached value when the cache file holds a non-empty one. Otherwise it opens the site in a browser and polls credential sources until the timeout. The sources, in priority order, are: buffered `/api/search` requests (FIFO), then buffered responses (`x-search-session` before `x-search-token`), then cookies, then `localStorage`, then `sessionStorage`. Cookie names and storage keys pass when, lower-cased, they contain `session`, `search` or `x-search`. The first value found is saved to the cache and returned.
- `scraper.py` gets the session through the bootstrap and fails when there is none. It then requests pages 1, 2, … and appends their rows. It stops at the first empty page, or once the number of rows collected reaches a non-zero reported `total`. Finally it maps every raw record to a seven-field output record. Absent, null or empty values become `""`, and a missing `agent` blanks its three fields.

The browser, the network and the disk become values:
- **Cache file:** `Bootstrap.CacheFile`. It is missing, undecodable, or stored with an optional `session_id`.
- **One poll round:** `Bootstrap.Observation`. It holds the request and response events fired since the previous round, the cookies, and both storages. Cookies or storages are `None` when the browser call that reads them raised.
- **Timeout:** the number of rounds in `Bootstrap.World.rounds`.
- **API server:** a finite sequence of `Scraper.Page` values. Pages past the end of that sequence are empty.

Modules:
- `Wrappers` (wrappers.dfy): `Option`, `Result` and `First`, the first element of a sequence as an Option.
- `Text` (text.dfy): Python's substring test `sub in s` (`Contains`) and ASCII `lower()`/`upper()`.
- `Bootstrap` (bootstrap.dfy): the cache decode, the keyword test, the listeners' buffering and the polling loop.
  - The loop is modelled imperatively: the two buffers are local sequences drained from the front.
  - It is proved against a reference definition, the priority-ordered list of all candidate values (`AllCandidates`). `SelectSession` is the first element of that list, or the cached value.
- `Scraper` (scraper.py's model, scraper.dfy): `BuildHeaders`, `TransformResult`, the output object, the pagination loop (`FetchAllResults`) and `Run` (the model of `main`).
  - The pagination loop is proved against the predicate `Fetched`, which says which pages are requested, why the loop continues past each page, and what it returns.
  - `FetchedDeterministic` shows that `Fetched` leaves exactly one possible behaviour.

## Model

| member | source | states |
|---|---|---|
| `Bootstrap.LoadCachedSession` | bootstrap_session.py:30-49 | a value is returned exactly when the file decodes and its `session_id` is a non-empty string, and it is that string; a missing file, a decode failure, an absent/null or empty id all give None |
| `Bootstrap.SaveSession` | bootstrap_session.py:52-63 | the file written for id `v` loads back as `Some(v)` when `v` is non-empty and as no cache when it is empty |
| `Bootstrap.SessionLike` | bootstrap_session.py:169-186 | the keyword test on cookie names (line 169) and storage keys (line 186): the name, lower-cased, contains `session`, `search` or `x-search`; its properties are stated by `SessionLikeSimplified` and `SessionLikeIgnoresCase` |
| `Bootstrap.SessionLikeSimplified` | bootstrap_session.py:169 | the three-keyword name test is equivalent to "lower-cased name contains `session` or `search`" (the `x-search` clause is implied by `search`) |
| `Bootstrap.SessionLikeIgnoresCase` | bootstrap_session.py:186 | the name test gives the same answer for a name and its upper-cased form |
| `Bootstrap.SessionValue` | bootstrap_session.py:140-153 | a request offers its `x-search-session` value; a response offers a non-empty `x-search-session` in preference to `x-search-token`, which is used only when the former is absent or empty |
| `Bootstrap.Buffered` | bootstrap_session.py:108-128 | the listeners buffer exactly the events whose URL contains `/api/search`: every buffered event has such a URL and every such event is buffered |
| `Bootstrap.BufferedConcat` | bootstrap_session.py:115-126 | buffering keeps the order in which events fired: a later batch is appended after an earlier one |
| `Bootstrap.FirstQueueCandidate` | bootstrap_session.py:138-161 | draining a buffer yields `v` if and only if some event has value `v` and every earlier event had none (those are discarded) |
| `Bootstrap.NoQueueCandidate` | bootstrap_session.py:138-161 | draining a buffer yields nothing if and only if no event in it has a non-empty session value |
| `Bootstrap.FirstEntryCandidate` | bootstrap_session.py:164-191 | a cookie/storage scan yields `v` if and only if the first entry whose name passes the keyword test has value `v`, even when `v` is empty |
| `Bootstrap.NoEntryCandidate` | bootstrap_session.py:164-191 | a scan yields nothing if and only if no entry name passes the keyword test |
| `Bootstrap.RoundPriority` | bootstrap_session.py:137-191 | a round's value comes from requests, else responses, else cookies, else localStorage, else sessionStorage; a later source is used only when every earlier one yielded nothing |
| `Bootstrap.EmptyCookieValueReturned` | bootstrap_session.py:166-172 | a cookie named `SessionId` with an empty value ends polling with `""`, although a later round would have seen a request carrying a real session header |
| `Bootstrap.LongerTimeoutKeepsSession` | bootstrap_session.py:133-136 | once a session is found within the given rounds, allowing more rounds does not change it |
| `Bootstrap.TimeoutYieldsNone` | bootstrap_session.py:136-197 | with no cache and no candidate in any round before the timeout, the result is None |
| `Bootstrap.PolledSessionReusedNextRun` | bootstrap_session.py:73-75 | a non-empty session found by polling has been cached, so the next run returns it without polling; an empty one reads back as no cache |
| `Bootstrap.Drain` | bootstrap_session.py:138-161 | the `pop(0)` loop returns the first non-empty session value of the buffer (the reference definition's first candidate), leaves exactly the events after the winner (every event before it had no value), and leaves the buffer empty when nothing is found |
| `Bootstrap.ScanEntries` | bootstrap_session.py:166-189 | the `for` loop with early return yields the first entry value whose name passes the keyword test |
| `Bootstrap.PollRound` | bootstrap_session.py:136-194 | one round yields the first candidate in priority order; both buffers are drained when nothing is found; the response buffer is untouched when a request supplied the value |
| `Bootstrap.GetSearchSession` | bootstrap_session.py:66-201 | the result is the cached id, else None if the site did not open, else the first candidate over all rounds in order (None on timeout); a polled value has been saved to the cache, otherwise the cache is unchanged |
| `Scraper.BuildHeaders` | scraper.py:21-41 | `x-search-session` holds the given id, and the `Referer` is the results-page URL from which the query is read back unchanged |
| `Scraper.OrEmpty` | scraper.py:132-138 | `value or ""`: the result is empty exactly when the value is absent, null or empty, and it is the value otherwise |
| `Scraper.TransformResult` | scraper.py:124-139 | `transform_result`: each output field is `value or ""` of the matching API field, the agent fields read from `agent` or `{}`; its contract is stated by `TransformDefaults`, `MissingAgentBlanksAgentFields` and `TransformKeepsPresentValues` |
| `Scraper.TransformDefaults` | scraper.py:124-139 | each of the seven output fields is the API field's value when that is non-empty and `""` otherwise, each field independently |
| `Scraper.MissingAgentBlanksAgentFields` | scraper.py:129-138 | a missing or null `agent` makes the three agent fields `""` while the four top-level fields are defaulted as usual |
| `Scraper.TransformKeepsPresentValues` | scraper.py:132-138 | every field present in the API record is copied unchanged: a record carrying all seven values transforms to exactly those values |
| `Scraper.OutputObject` | scraper.py:131-139 | the output object has exactly the seven keys `business_name` … `agent_email` |
| `Scraper.OutputObjectRoundTrip` | scraper.py:131-139 | the seven keys are distinct, so every field is read back unchanged from the output object |
| `Scraper.TransformAll` | scraper.py:161 | the transformed list has the same length and order as the raw list, element `i` being the transform of raw element `i` |
| `Scraper.TransformAllConcat` | scraper.py:158-161 | transforming the concatenated pages equals concatenating the transformed pages |
| `Scraper.EmptyPageAddsNothing` | scraper.py:104-108 | an empty page that stops the loop contributes no rows |
| `Scraper.NoTotalStopsOnlyWhenEmpty` | scraper.py:112-117 | with `total` missing, null or 0, a page stops the loop if and only if it is empty |
| `Scraper.FetchedDeterministic` | scraper.py:99-121 | the pagination contract determines the requests and the outcome uniquely |
| `Scraper.FetchAllResults` | scraper.py:81-121 | with no session (None or `""`) nothing is requested and the call fails. Otherwise the pages requested are 1, 2, … (one more each iteration), each with the session's headers and the query. Every page but the last is non-empty and does not bring the rows collected up to a non-zero total (a missing or 0 `total` never stops the loop). The last page either failed, and the error names it, or is empty or reaches the total, and the result is the rows of the pages requested in page order. At most one request goes past the server's last page, and the cache is updated as the bootstrap leaves it |
| `Scraper.Run` | scraper.py:151-180 | the query defaults to "Silver Tech" only when none is given; the output is the element-wise transform of the fetched rows, or the fetch's failure |

## Left out

- Browser mechanics (launch, context, `page.on` registration, `page.evaluate`, `browser.close`, the printed instructions) are not modelled. Only their outcomes are inputs: the events, cookies and storages of each round, and whether `page.goto` succeeded (`World.siteOpened`).
- A failed browser launch is not modelled. The launch sits outside the `try` block, so such an exception would propagate to the caller.
- Wall-clock time, `time.sleep` and the 240-second deadline are not modelled. The timeout is the number of rounds in `World.rounds`.
- Listener callbacks run asynchronously with the polling loop. The model delivers each event at the start of a round. An event that fires while a round is under way is seen in the next round, so an event arriving during a drain is not picked up by that same drain.
- Storage contents are given already decoded, as key/value sequences in iteration order. A store whose JSON fails to decode is given as an empty sequence. Cookie dictionaries missing `name` or `value` are given with `""`.
- Case folding is ASCII only (`Text.Lower`). Python's Unicode `lower()` is not modelled.
- `Scraper.BuildHeaders`: holds only the two headers that depend on its arguments (`Referer`, `x-search-session`). The eight constant headers (User-Agent, Accept, Accept-Encoding, Accept-Language, the three Sec-Fetch headers, Origin) are not modelled.
- HTTP plumbing is not modelled: `requests.get`, its 15-second timeout, `raise_for_status`, JSON parsing and the 250-character error snippets. A page whose request raises is the single `Page.Failed` case. This includes a body whose `results` is null, on which `fetch_page` raises when it takes the length.
- API record values are modelled as strings. A truthy non-string value, which Python would copy as it is, is not modelled. Neither is an `agent` that is present, truthy and not an object, on which `agent.get` raises. A falsy `agent` (`false`, `0`, `""`, `[]`) is replaced by `{}` and is given as None.
- `total` is an optional integer. A string `total` that `int()` rejects is not modelled, and neither is a float that it truncates.
- `Bootstrap.GetSearchSession`: assumes `save_session` writes the file. A write error, which the source swallows, is not modelled. If `open` fails the old file stays; if `json.dump` fails the file is left truncated and undecodable. Polling only starts when the file gave no cache, so either way the next run again reads no cache. The cache timestamp is written, and read back only for a log message. It never decides anything, so it is not modelled either.
- Writing `output.json`, all logging, the sample-output lines and `sys.exit` are not modelled. `Scraper.Run` (the model of `main`) returns the records or the failure.
