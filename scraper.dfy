/** The scraper of scraper.py: obtain a session through the bootstrap, request the search API
    page by page until an empty page or the reported total, and map every raw API record to
    the fixed seven-field output record.

    The HTTP server is replaced by a finite sequence of page responses: page `n` (counted from
    1) is `pages[n - 1]`, and every page past the end of the sequence is an empty page. */
module Scraper {
  import opened Wrappers
  import opened Text
  import Bootstrap

  const BASE_URL := "https://scraping-trial-test.vercel.app"
  const REFERER_PREFIX := BASE_URL + "/search/results?q="
  const DEFAULT_QUERY := "Silver Tech"

  // ---------------------------------------------------------------------------------------
  // Request headers

  /** `build_headers`, restricted to the two headers that depend on its arguments: the
      `Referer` embeds the query verbatim (no URL encoding) and `x-search-session` carries the
      session id. */
  function BuildHeaders(query: string, sessionId: string): (h: map<string, string>)
    ensures "Referer" in h && "x-search-session" in h
    ensures h["x-search-session"] == sessionId
    ensures RefererQuery(h["Referer"]) == Some(query)
  {
    assert (REFERER_PREFIX + query)[..|REFERER_PREFIX|] == REFERER_PREFIX;
    assert (REFERER_PREFIX + query)[|REFERER_PREFIX|..] == query;
    map["Referer" := REFERER_PREFIX + query, "x-search-session" := sessionId]
  }

  /** The query a `Referer` of the results page carries, if it is one. */
  function RefererQuery(referer: string): Option<string>
  {
    if StartsWith(referer, REFERER_PREFIX) then Some(referer[|REFERER_PREFIX|..]) else None
  }

  // ---------------------------------------------------------------------------------------
  // Records

  /** The `agent` object of an API record; None stands for an absent or null key. */
  datatype Agent = Agent(name: Option<string>, address: Option<string>, email: Option<string>)

  /** One element of the API's `results` array; None stands for an absent or null key. */
  datatype ApiResult = ApiResult(
    businessName: Option<string>,
    registrationId: Option<string>,
    status: Option<string>,
    filingDate: Option<string>,
    agent: Option<Agent>)

  /** The record written to output.json. */
  datatype OutputRecord = OutputRecord(
    businessName: string,
    registrationId: string,
    status: string,
    filingDate: string,
    agentName: string,
    agentAddress: string,
    agentEmail: string)

  /** `d.get(key, "") or ""` for a string-valued key: absent, null and "" all give "". */
  function OrEmpty(v: Option<string>): (s: string)
    ensures s == "" <==> (v == None || v == Some(""))
    ensures s != "" ==> v == Some(s)
  {
    match v
    case None => ""
    case Some(x) => x
  }

  /** `transform_result`. */
  function TransformResult(r: ApiResult): OutputRecord
  {
    var agent := if r.agent.Some? then r.agent.value else Agent(None, None, None);
    OutputRecord(
      OrEmpty(r.businessName), OrEmpty(r.registrationId), OrEmpty(r.status), OrEmpty(r.filingDate),
      OrEmpty(agent.name), OrEmpty(agent.address), OrEmpty(agent.email))
  }

  /** A field is "" when its key is absent, null or empty, and is the API's value otherwise. */
  predicate Defaulted(v: Option<string>, out: string)
  {
    ((v == None || v == Some("")) && out == "") || (v.Some? && v.value != "" && out == v.value)
  }

  /** Every output field is the corresponding API field or "", defaulted independently. */
  lemma TransformDefaults(r: ApiResult)
    ensures var o := TransformResult(r);
            && Defaulted(r.businessName, o.businessName)
            && Defaulted(r.registrationId, o.registrationId)
            && Defaulted(r.status, o.status)
            && Defaulted(r.filingDate, o.filingDate)
            && (r.agent.Some? ==> Defaulted(r.agent.value.name, o.agentName)
                                  && Defaulted(r.agent.value.address, o.agentAddress)
                                  && Defaulted(r.agent.value.email, o.agentEmail))
  {
  }

  /** A missing or null `agent` blanks all three agent fields and nothing else. */
  lemma MissingAgentBlanksAgentFields(r: ApiResult)
    requires r.agent.None?
    ensures var o := TransformResult(r);
            o.agentName == "" && o.agentAddress == "" && o.agentEmail == ""
            && o.businessName == OrEmpty(r.businessName)
            && o.registrationId == OrEmpty(r.registrationId)
            && o.status == OrEmpty(r.status)
            && o.filingDate == OrEmpty(r.filingDate)
  {
  }

  /** An API record that carries every field unchanged transforms back to that record. */
  lemma TransformKeepsPresentValues(o: OutputRecord)
    ensures TransformResult(ApiResult(Some(o.businessName), Some(o.registrationId), Some(o.status),
              Some(o.filingDate), Some(Agent(Some(o.agentName), Some(o.agentAddress), Some(o.agentEmail))))) == o
  {
  }

  /** The seven keys of an output object. */
  const OUTPUT_KEYS: set<string> :=
    {"business_name", "registration_id", "status", "filing_date", "agent_name", "agent_address", "agent_email"}

  /** The JSON object a record is written as (the dict `transform_result` builds). */
  function OutputObject(o: OutputRecord): (m: map<string, string>)
    ensures m.Keys == OUTPUT_KEYS
  {
    map["business_name" := o.businessName, "registration_id" := o.registrationId,
        "status" := o.status, "filing_date" := o.filingDate, "agent_name" := o.agentName,
        "agent_address" := o.agentAddress, "agent_email" := o.agentEmail]
  }

  /** Read a record back from an output object. */
  function ParseOutputObject(m: map<string, string>): Option<OutputRecord>
  {
    if OUTPUT_KEYS <= m.Keys then
      Some(OutputRecord(m["business_name"], m["registration_id"], m["status"], m["filing_date"],
                        m["agent_name"], m["agent_address"], m["agent_email"]))
    else None
  }

  /** The seven keys are distinct: every field survives the trip through the output object. */
  lemma OutputObjectRoundTrip(o: OutputRecord)
    ensures ParseOutputObject(OutputObject(o)) == Some(o)
  {
  }

  /** The list comprehension in `main`: the records transformed one by one, in order. */
  function TransformAll(raws: seq<ApiResult>): (out: seq<OutputRecord>)
    ensures |out| == |raws|
    ensures forall i :: 0 <= i < |raws| ==> out[i] == TransformResult(raws[i])
  {
    if raws == [] then [] else [TransformResult(raws[0])] + TransformAll(raws[1..])
  }

  /** Transforming concatenated pages is concatenating the transformed pages. */
  lemma {:induction false} TransformAllConcat(a: seq<ApiResult>, b: seq<ApiResult>)
    ensures TransformAll(a + b) == TransformAll(a) + TransformAll(b)
  {
    if a == [] {
      assert a + b == b;
    } else {
      assert (a + b)[1..] == a[1..] + b;
      TransformAllConcat(a[1..], b);
    }
  }

  // ---------------------------------------------------------------------------------------
  // Pagination

  /** The JSON body of one page (`results` absent reads as []; `total` absent or null is None),
      or a page whose request raised (an HTTP error status or a body that is not JSON). A body
      whose `results` is null makes `fetch_page` raise on its length, so it is `Failed` too. */
  datatype Page = Page(results: seq<ApiResult>, total: Option<int>) | Failed

  /** One call of `fetch_page`: the headers sent and the `q` and `page` parameters. */
  datatype Request = Request(headers: map<string, string>, query: string, page: int)

  datatype FetchError = NoSession | HttpError(page: int)

  /** The response to the page with index `i` (page number `i + 1`). */
  function PageAt(pages: seq<Page>, i: nat): Page
  {
    if i < |pages| then pages[i] else Page([], None)
  }

  function ResultsOf(p: Page): seq<ApiResult>
  {
    if p.Page? then p.results else []
  }

  /** `int(data.get("total", 0) or 0)`. */
  function TotalOf(p: Page): int
  {
    if p.Page? && p.total.Some? then p.total.value else 0
  }

  /** The rows of the first `n` pages, in page order. */
  function Collected(pages: seq<Page>, n: nat): seq<ApiResult>
  {
    if n == 0 then [] else Collected(pages, n - 1) + ResultsOf(PageAt(pages, n - 1))
  }

  /** After adding page `i`'s rows, the count has reached a non-zero reported total. */
  predicate ReachedTotal(pages: seq<Page>, i: nat)
  {
    var total := TotalOf(PageAt(pages, i));
    total != 0 && |Collected(pages, i + 1)| >= total
  }

  /** Page `i` is answered, has rows and does not reach the total: the loop requests the next. */
  predicate Continues(pages: seq<Page>, i: nat)
  {
    PageAt(pages, i).Page? && PageAt(pages, i).results != [] && !ReachedTotal(pages, i)
  }

  /** Page `i` is answered and ends the loop: it is empty or reaches the total. */
  predicate StopsAt(pages: seq<Page>, i: nat)
  {
    PageAt(pages, i).Page? && (PageAt(pages, i).results == [] || ReachedTotal(pages, i))
  }

  /** What `fetch_all_results(query)` does in world `w` against the server `pages`: with no
      session (None or "") it sends nothing and fails; otherwise it requests pages 1, 2, ...
      with the session's headers, every page but the last lets the loop go on, and the last
      either fails (the error names its number) or stops the loop, the result being the rows of
      all pages requested. */
  ghost predicate Fetched(query: string, w: Bootstrap.World, pages: seq<Page>,
                          outcome: Result<seq<ApiResult>, FetchError>, sent: seq<Request>)
  {
    var session := Bootstrap.SelectSession(w);
    if session.None? || session.value == "" then
      outcome == Failure(NoSession) && sent == []
    else
      var n := |sent|;
      && 1 <= n
      && (forall i :: 0 <= i < n ==> sent[i] == Request(BuildHeaders(query, session.value), query, i + 1))
      && (forall i :: 0 <= i < n - 1 ==> Continues(pages, i))
      && (outcome.Success? ==> StopsAt(pages, n - 1) && outcome.value == Collected(pages, n))
      && (outcome.Failure? ==> PageAt(pages, n - 1).Failed? && outcome.error == HttpError(n))
  }

  /** An empty stopping page adds no rows. */
  lemma EmptyPageAddsNothing(pages: seq<Page>, i: nat)
    requires StopsAt(pages, i) && PageAt(pages, i).results == []
    ensures Collected(pages, i + 1) == Collected(pages, i)
  {
    assert Collected(pages, i + 1) == Collected(pages, i) + [];
  }

  /** With no usable total (absent or 0) only an empty page stops the loop. */
  lemma NoTotalStopsOnlyWhenEmpty(pages: seq<Page>, i: nat)
    requires PageAt(pages, i).Page? && TotalOf(PageAt(pages, i)) == 0
    ensures StopsAt(pages, i) <==> PageAt(pages, i).results == []
  {
  }

  /** The contract determines the behaviour: the number of requests, the requests themselves
      and the outcome are the same for every pair of results that satisfy it. */
  lemma FetchedDeterministic(query: string, w: Bootstrap.World, pages: seq<Page>,
                             o1: Result<seq<ApiResult>, FetchError>, s1: seq<Request>,
                             o2: Result<seq<ApiResult>, FetchError>, s2: seq<Request>)
    requires Fetched(query, w, pages, o1, s1) && Fetched(query, w, pages, o2, s2)
    ensures o1 == o2 && s1 == s2
  {
    var session := Bootstrap.SelectSession(w);
    if session.Some? && session.value != "" {
      assert |s1| < |s2| ==> Continues(pages, |s1| - 1);
      assert |s2| < |s1| ==> Continues(pages, |s2| - 1);
      assert forall i :: 0 <= i < |s1| ==> s1[i] == s2[i];
    }
  }

  /** `fetch_all_results`: obtain the session, then request pages from 1 upward, appending each
      page's rows, until a page is empty or the collected count reaches a non-zero total.
      The loop of the source has no bound of its own: when the total is missing and the server
      never returns an empty page it does not terminate. Here the server's pages run out, so
      the loop makes at most one request past the last page in `pages`. */
  method FetchAllResults(query: string, w: Bootstrap.World, pages: seq<Page>)
    returns (outcome: Result<seq<ApiResult>, FetchError>, sent: seq<Request>, cacheAfter: Bootstrap.CacheFile)
    ensures Fetched(query, w, pages, outcome, sent)
    ensures |sent| <= |pages| + 1
    ensures Bootstrap.CacheUpdated(w, Bootstrap.SelectSession(w), cacheAfter)
  {
    var session;
    session, cacheAfter := Bootstrap.GetSearchSession(w);
    if session.None? || session.value == "" {
      return Failure(NoSession), [], cacheAfter;
    }
    var sessionId := session.value;
    var allResults: seq<ApiResult> := [];
    var page := 1;
    sent := [];
    while true
      invariant 1 <= page <= |pages| + 1
      invariant |sent| == page - 1
      invariant forall i :: 0 <= i < |sent| ==> sent[i] == Request(BuildHeaders(query, sessionId), query, i + 1)
      invariant forall i :: 0 <= i < page - 1 ==> Continues(pages, i)
      invariant allResults == Collected(pages, page - 1)
      decreases |pages| + 1 - page
    {
      sent := sent + [Request(BuildHeaders(query, sessionId), query, page)];
      var data := PageAt(pages, page - 1);
      if data.Failed? {
        return Failure(HttpError(page)), sent, cacheAfter;
      }
      var results := data.results;
      if results == [] {
        EmptyPageAddsNothing(pages, page - 1);
        break;
      }
      allResults := allResults + results;
      var total := TotalOf(data);
      if total != 0 && |allResults| >= total {
        break;
      }
      page := page + 1;
    }
    outcome := Success(allResults);
  }

  /** The query `main` searches for: the argument, or "Silver Tech" when none is given (an
      empty argument is kept). */
  function EffectiveQuery(query: Option<string>): string
  {
    if query.None? then DEFAULT_QUERY else query.value
  }

  /** `main` (the script entry point): fetch all raw records for the query and transform them element-wise, in order;
      any failure of the fetch is the failure of the run. */
  method Run(query: Option<string>, w: Bootstrap.World, pages: seq<Page>)
    returns (output: Result<seq<OutputRecord>, FetchError>, sent: seq<Request>, cacheAfter: Bootstrap.CacheFile)
    ensures exists raw :: Fetched(EffectiveQuery(query), w, pages, raw, sent)
                          && output == (if raw.Success? then Success(TransformAll(raw.value)) else Failure(raw.error))
    ensures Bootstrap.CacheUpdated(w, Bootstrap.SelectSession(w), cacheAfter)
  {
    var q := EffectiveQuery(query);
    var raw;
    raw, sent, cacheAfter := FetchAllResults(q, w, pages);
    if raw.Failure? {
      return Failure(raw.error), sent, cacheAfter;
    }
    output := Success(TransformAll(raw.value));
  }
}
