/** The session bootstrap of bootstrap_session.py: obtain an `x-search-session` value, first from
    the on-disk cache, otherwise by polling what a real browser observes (the `/api/search`
    requests and responses it makes, its cookies and its web storage) for a bounded number of
    rounds, and persist whatever value is found.

    The browser and the disk are replaced by values. What a poll round sees is an `Observation`;
    the wall-clock timeout becomes the number of rounds in `World.rounds`. */
module Bootstrap {
  import opened Wrappers
  import opened Text

  type Headers = map<string, string>

  /** A request or response event as the page listeners see it: its URL and its header map. */
  datatype Traffic = Traffic(url: string, headers: Headers)

  /** One cookie (name, value) or one web-storage item (key, value). */
  datatype Entry = Entry(key: string, value: string)

  /** The decoded contents of `localStorage` and `sessionStorage`, in their iteration order. */
  datatype Storages = Storages(local: seq<Entry>, session: seq<Entry>)

  /** What one round of the polling loop gets to see: the request and response events fired
      since the previous round, the context's cookies (None when `context.cookies()` raised) and
      the two storages (None when one of the `page.evaluate` calls raised). */
  datatype Observation = Observation(
    requests: seq<Traffic>,
    responses: seq<Traffic>,
    cookies: Option<seq<Entry>>,
    storages: Option<Storages>)

  /** The session cache file: missing, not decodable as a JSON object, or an object whose
      `session_id` key is absent/null (None) or holds a string. */
  datatype CacheFile = NoFile | Undecodable | Stored(sessionId: Option<string>)

  /** Everything `get_search_session` depends on: the cache file, whether the site opened
      (`page.goto` did not raise), and what each poll round before the timeout observes. */
  datatype World = World(cache: CacheFile, siteOpened: bool, rounds: seq<Observation>)

  const SEARCH_PATH := "/api/search"
  const SESSION_HEADER := "x-search-session"
  const TOKEN_HEADER := "x-search-token"

  // ---------------------------------------------------------------------------------------
  // The cache

  /** `load_cached_session`: the cached id, if the file decodes and holds a non-empty one. */
  function LoadCachedSession(f: CacheFile): (r: Option<string>)
    ensures r.Some? <==> f.Stored? && f.sessionId.Some? && f.sessionId.value != ""
    ensures r.Some? ==> r.value == f.sessionId.value
  {
    match f
    case Stored(Some(id)) => if id != "" then Some(id) else None
    case _ => None
  }

  /** The file `save_session(id)` leaves behind: a non-empty id is read back by the next
      `load_cached_session`, an empty one reads as no cache. */
  function SaveSession(id: string): (f: CacheFile)
    ensures LoadCachedSession(f) == if id == "" then None else Some(id)
  {
    Stored(Some(id))
  }

  // ---------------------------------------------------------------------------------------
  // The name test and the header lookups

  /** The keyword test on cookie names and storage keys. */
  predicate SessionLike(name: string)
  {
    var n := Lower(name);
    Contains(n, "session") || Contains(n, "search") || Contains(n, "x-search")
  }

  /** The third keyword is redundant: the test is "contains `session` or `search`". */
  lemma SessionLikeSimplified(name: string)
    ensures SessionLike(name) <==> Contains(Lower(name), "session") || Contains(Lower(name), "search")
  {
    if Contains(Lower(name), "x-search") {
      ContainsTail(Lower(name), "x-search", 2);
      assert "x-search"[2..] == "search";
    }
  }

  /** The test ignores case: an upper-cased name matches exactly when the name does. */
  lemma SessionLikeIgnoresCase(name: string)
    ensures SessionLike(Upper(name)) == SessionLike(name)
  {
    LowerOfUpper(name);
  }

  /** `hdrs.get(key)` read for truthiness: an absent key reads as "". */
  function Lookup(h: Headers, key: string): string
  {
    if key in h then h[key] else ""
  }

  /** The `/api/search` events go to `requests_seen` / `responses_seen`. */
  datatype Direction = Outgoing | Incoming

  /** The candidate session value of a buffered event ("" means none): a request offers its
      `x-search-session` header, a response its `x-search-session` or else its `x-search-token`. */
  function SessionValue(d: Direction, h: Headers): (v: string)
    ensures d == Incoming && Lookup(h, SESSION_HEADER) != "" ==> v == h[SESSION_HEADER]
    ensures d == Incoming && Lookup(h, SESSION_HEADER) == "" ==> v == Lookup(h, TOKEN_HEADER)
    ensures d == Outgoing ==> v == Lookup(h, SESSION_HEADER)
  {
    match d
    case Outgoing => Lookup(h, SESSION_HEADER)
    case Incoming =>
      var s := Lookup(h, SESSION_HEADER);
      if s != "" then s else Lookup(h, TOKEN_HEADER)
  }

  /** The events the `_on_request` / `_on_response` listeners append to their buffer, in the
      order they fired: those whose URL contains `/api/search`. */
  function Buffered(events: seq<Traffic>): (b: seq<Traffic>)
    ensures |b| <= |events|
    ensures forall t | t in b :: t in events && Contains(t.url, SEARCH_PATH)
    ensures forall t | t in events && Contains(t.url, SEARCH_PATH) :: t in b
  {
    if events == [] then []
    else if Contains(events[0].url, SEARCH_PATH) then [events[0]] + Buffered(events[1..])
    else Buffered(events[1..])
  }

  /** Listener order is kept: buffering a later batch appends to an earlier one. */
  lemma {:induction false} BufferedConcat(a: seq<Traffic>, b: seq<Traffic>)
    ensures Buffered(a + b) == Buffered(a) + Buffered(b)
  {
    if a == [] {
      assert a + b == b;
    } else {
      assert (a + b)[1..] == a[1..] + b;
      BufferedConcat(a[1..], b);
    }
  }

  // ---------------------------------------------------------------------------------------
  // Reference definition: the priority-ordered list of candidate values

  /** The session values a queue yields, front first. */
  function QueueCandidates(d: Direction, q: seq<Traffic>): seq<string>
  {
    if q == [] then []
    else
      var v := SessionValue(d, q[0].headers);
      (if v != "" then [v] else []) + QueueCandidates(d, q[1..])
  }

  /** The values of the entries whose name passes the keyword test, in order; an empty value
      counts, since these scans have no truthiness check. */
  function EntryCandidates(es: seq<Entry>): seq<string>
  {
    if es == [] then []
    else (if SessionLike(es[0].key) then [es[0].value] else []) + EntryCandidates(es[1..])
  }

  /** Cookies, then localStorage, then sessionStorage. */
  function BrowserCandidates(obs: Observation): seq<string>
  {
    (if obs.cookies.Some? then EntryCandidates(obs.cookies.value) else [])
    + (if obs.storages.Some? then EntryCandidates(obs.storages.value.local)
                                  + EntryCandidates(obs.storages.value.session)
       else [])
  }

  /** All candidates of one round with the given queues, in the order the round tries them. */
  function PollCandidates(requests: seq<Traffic>, responses: seq<Traffic>, obs: Observation): seq<string>
  {
    QueueCandidates(Outgoing, requests) + QueueCandidates(Incoming, responses) + BrowserCandidates(obs)
  }

  /** The candidates of one round that starts with empty queues. */
  function RoundCandidates(obs: Observation): seq<string>
  {
    PollCandidates(Buffered(obs.requests), Buffered(obs.responses), obs)
  }

  /** The candidates of all rounds, round by round. */
  function AllCandidates(rounds: seq<Observation>): seq<string>
  {
    if rounds == [] then [] else RoundCandidates(rounds[0]) + AllCandidates(rounds[1..])
  }

  lemma {:induction false} AllCandidatesConcat(a: seq<Observation>, b: seq<Observation>)
    ensures AllCandidates(a + b) == AllCandidates(a) + AllCandidates(b)
  {
    if a == [] {
      assert a + b == b;
    } else {
      assert (a + b)[1..] == a[1..] + b;
      AllCandidatesConcat(a[1..], b);
    }
  }

  /** What `get_search_session` returns: the cached id, else (if the site opened) the first
      candidate of the first round that has one, else None. */
  function SelectSession(w: World): Option<string>
  {
    var cached := LoadCachedSession(w.cache);
    if cached.Some? then cached
    else if !w.siteOpened then None
    else First(AllCandidates(w.rounds))
  }

  /** The cache file after `get_search_session`: a polled value has been saved; a cache hit or
      a failure leaves the file as it was. */
  predicate CacheUpdated(w: World, r: Option<string>, after: CacheFile)
  {
    if LoadCachedSession(w.cache).None? && r.Some? then after == SaveSession(r.value)
    else after == w.cache
  }

  // ---------------------------------------------------------------------------------------
  // Properties of the reference definition

  /** The event at index `i` of `q` supplies `v` and no earlier event supplied anything. */
  ghost predicate QueueWinsAt(d: Direction, q: seq<Traffic>, i: int, v: string)
  {
    0 <= i < |q| && v != "" && SessionValue(d, q[i].headers) == v
    && forall j :: 0 <= j < i ==> SessionValue(d, q[j].headers) == ""
  }

  /** A queue yields `v` exactly when its first event with a non-empty value has value `v`. */
  lemma {:induction false} FirstQueueCandidate(d: Direction, q: seq<Traffic>, v: string)
    ensures First(QueueCandidates(d, q)) == Some(v) <==> exists i :: QueueWinsAt(d, q, i, v)
  {
    if q != [] {
      var h := SessionValue(d, q[0].headers);
      FirstQueueCandidate(d, q[1..], v);
      if h != "" {
        if h == v {
          assert QueueWinsAt(d, q, 0, v);
        }
        assert forall i :: QueueWinsAt(d, q, i, v) ==> i == 0;
      } else {
        assert QueueCandidates(d, q) == QueueCandidates(d, q[1..]);
        forall i | QueueWinsAt(d, q[1..], i, v)
          ensures QueueWinsAt(d, q, i + 1, v)
        {
          assert forall j :: 1 <= j < i + 1 ==> q[j] == q[1..][j - 1];
        }
        forall i | QueueWinsAt(d, q, i, v)
          ensures QueueWinsAt(d, q[1..], i - 1, v)
        {
          assert forall j :: 0 <= j < i - 1 ==> q[1..][j] == q[j + 1];
        }
      }
    }
  }

  /** A queue yields nothing exactly when no event in it has a non-empty value. */
  lemma {:induction false} NoQueueCandidate(d: Direction, q: seq<Traffic>)
    ensures First(QueueCandidates(d, q)) == None <==>
            forall i :: 0 <= i < |q| ==> SessionValue(d, q[i].headers) == ""
  {
    if q != [] {
      NoQueueCandidate(d, q[1..]);
      assert forall i :: 1 <= i < |q| ==> q[1..][i - 1] == q[i];
    }
  }

  /** Entry `i` of `es` is the first whose name passes the keyword test, and its value is `v`. */
  ghost predicate EntryWinsAt(es: seq<Entry>, i: int, v: string)
  {
    0 <= i < |es| && SessionLike(es[i].key) && es[i].value == v
    && forall j :: 0 <= j < i ==> !SessionLike(es[j].key)
  }

  /** A scan yields `v` exactly when the first entry passing the keyword test has value `v`
      (which may be ""). */
  lemma {:induction false} FirstEntryCandidate(es: seq<Entry>, v: string)
    ensures First(EntryCandidates(es)) == Some(v) <==> exists i :: EntryWinsAt(es, i, v)
  {
    if es != [] {
      FirstEntryCandidate(es[1..], v);
      if SessionLike(es[0].key) {
        if es[0].value == v {
          assert EntryWinsAt(es, 0, v);
        }
        assert forall i :: EntryWinsAt(es, i, v) ==> i == 0;
      } else {
        assert EntryCandidates(es) == EntryCandidates(es[1..]);
        forall i | EntryWinsAt(es[1..], i, v)
          ensures EntryWinsAt(es, i + 1, v)
        {
          assert forall j :: 1 <= j < i + 1 ==> es[j] == es[1..][j - 1];
        }
        forall i | EntryWinsAt(es, i, v)
          ensures EntryWinsAt(es[1..], i - 1, v)
        {
          assert forall j :: 0 <= j < i - 1 ==> es[1..][j] == es[j + 1];
        }
      }
    }
  }

  /** A scan yields nothing exactly when no entry passes the keyword test. */
  lemma {:induction false} NoEntryCandidate(es: seq<Entry>)
    ensures First(EntryCandidates(es)) == None <==> forall i :: 0 <= i < |es| ==> !SessionLike(es[i].key)
  {
    if es != [] {
      NoEntryCandidate(es[1..]);
      assert forall i :: 1 <= i < |es| ==> es[1..][i - 1] == es[i];
    }
  }

  /** Source priority within a round: requests, then responses, then cookies, then
      localStorage, then sessionStorage; a source is consulted only when all earlier ones
      yielded nothing. */
  lemma RoundPriority(requests: seq<Traffic>, responses: seq<Traffic>, obs: Observation)
    ensures var fromRequests := QueueCandidates(Outgoing, requests);
            var fromResponses := QueueCandidates(Incoming, responses);
            var fromCookies := if obs.cookies.Some? then EntryCandidates(obs.cookies.value) else [];
            var fromLocal := if obs.storages.Some? then EntryCandidates(obs.storages.value.local) else [];
            var fromSession := if obs.storages.Some? then EntryCandidates(obs.storages.value.session) else [];
            First(PollCandidates(requests, responses, obs)) ==
              if fromRequests != [] then First(fromRequests)
              else if fromResponses != [] then First(fromResponses)
              else if fromCookies != [] then First(fromCookies)
              else if fromLocal != [] then First(fromLocal)
              else First(fromSession)
  {
  }


  /** Allowing more rounds (a longer timeout) does not change a session already found. */
  lemma LongerTimeoutKeepsSession(w: World, more: seq<Observation>)
    requires SelectSession(w).Some?
    ensures SelectSession(w.(rounds := w.rounds + more)) == SelectSession(w)
  {
    AllCandidatesConcat(w.rounds, more);
    FirstConcat(AllCandidates(w.rounds), AllCandidates(more));
  }

  /** With no cache, a site that opened and no candidate in any round, the result is None. */
  lemma TimeoutYieldsNone(w: World)
    requires LoadCachedSession(w.cache).None? && w.siteOpened
    requires forall k :: 0 <= k < |w.rounds| ==> RoundCandidates(w.rounds[k]) == []
    ensures SelectSession(w) == None
  {
    NoCandidates(w.rounds);
  }

  lemma {:induction false} NoCandidates(rounds: seq<Observation>)
    requires forall k :: 0 <= k < |rounds| ==> RoundCandidates(rounds[k]) == []
    ensures AllCandidates(rounds) == []
  {
    if rounds != [] {
      assert forall k :: 0 <= k < |rounds| - 1 ==> rounds[1..][k] == rounds[k + 1];
      NoCandidates(rounds[1..]);
    }
  }

  /** A non-empty session obtained by polling is cached, so the next run returns it at once
      without opening the browser; an empty one is cached too but reads back as no cache. */
  lemma PolledSessionReusedNextRun(w: World, after: CacheFile, next: World)
    requires LoadCachedSession(w.cache).None?
    requires SelectSession(w).Some?
    requires CacheUpdated(w, SelectSession(w), after)
    requires next.cache == after
    ensures SelectSession(w).value != "" ==> SelectSession(next) == SelectSession(w)
    ensures SelectSession(w).value == "" ==> LoadCachedSession(next.cache).None?
  {
  }

  /** A cookie named like a session wins even when its value is empty: polling stops with ""
      although a later request carries a real session header. */
  lemma EmptyCookieValueReturned()
    ensures var obs := Observation([], [], Some([Entry("SessionId", "")]), None);
            var later := Observation([Traffic("https://host/api/search?q=a", map[SESSION_HEADER := "abc"])],
                                     [], None, None);
            SelectSession(World(NoFile, true, [obs, later])) == Some("")
  {
    var obs := Observation([], [], Some([Entry("SessionId", "")]), None);
    assert Lower("SessionId") == "sessionid";
    assert StartsWith("sessionid", "session");
    assert EntryCandidates([Entry("SessionId", "")]) == [""];
    assert RoundCandidates(obs) == [""];
  }


  /** The candidates up to round `k` are those before it followed by round `k`'s own. */
  lemma RoundStep(rounds: seq<Observation>, k: nat)
    requires k < |rounds|
    ensures AllCandidates(rounds[..k + 1]) == AllCandidates(rounds[..k]) + RoundCandidates(rounds[k])
  {
    assert rounds[..k + 1] == rounds[..k] + [rounds[k]];
    AllCandidatesConcat(rounds[..k], [rounds[k]]);
    SingleRound(rounds[k]);
  }

  /** The candidates of all rounds split around round `k`. */
  lemma RoundSplit(rounds: seq<Observation>, k: nat)
    requires k < |rounds|
    ensures AllCandidates(rounds)
            == AllCandidates(rounds[..k]) + (RoundCandidates(rounds[k]) + AllCandidates(rounds[k + 1..]))
  {
    var rest := rounds[k..];
    assert rounds == rounds[..k] + rest;
    AllCandidatesConcat(rounds[..k], rest);
    assert rest[0] == rounds[k] && rest[1..] == rounds[k + 1..];
  }

  lemma SingleRound(x: Observation)
    ensures AllCandidates([x]) == RoundCandidates(x)
  {
    assert [x][1..] == [];
  }

  // ---------------------------------------------------------------------------------------
  // The polling loop

  /** Drain a buffered queue from the front (the `while ...: pop(0)` loops): stop at the first
      event with a non-empty session value, discarding the events before it. */
  method Drain(d: Direction, q: seq<Traffic>) returns (found: Option<string>, rest: seq<Traffic>)
    ensures found == First(QueueCandidates(d, q))
    ensures found.None? ==> rest == []
    ensures found.Some? ==> |rest| < |q| && rest == q[|q| - |rest|..]
                            && SessionValue(d, q[|q| - |rest| - 1].headers) == found.value
    ensures found.Some? ==> forall j :: 0 <= j < |q| - |rest| - 1 ==> SessionValue(d, q[j].headers) == ""
  {
    rest := q;
    while rest != []
      invariant |rest| <= |q| && rest == q[|q| - |rest|..]
      invariant QueueCandidates(d, rest) == QueueCandidates(d, q)
      invariant forall j :: 0 <= j < |q| - |rest| ==> SessionValue(d, q[j].headers) == ""
    {
      var event := rest[0];
      rest := rest[1..];
      var value := SessionValue(d, event.headers);
      if value != "" {
        return Some(value), rest;
      }
    }
    return None, rest;
  }

  /** Scan cookies or storage items in order (the `for` loops with an early `return`): the
      first entry whose name passes the keyword test wins. */
  method ScanEntries(es: seq<Entry>) returns (found: Option<string>)
    ensures found == First(EntryCandidates(es))
  {
    for i := 0 to |es|
      invariant EntryCandidates(es[i..]) == EntryCandidates(es)
    {
      assert es[i..][1..] == es[i + 1..];
      if SessionLike(es[i].key) {
        return Some(es[i].value);
      }
    }
    assert es[|es|..] == [];
    return None;
  }

  /** One round of the polling loop over the current buffers: requests, responses, cookies,
      localStorage, sessionStorage. The buffers come back drained unless a request or response
      supplied the value. */
  method PollRound(requests: seq<Traffic>, responses: seq<Traffic>, obs: Observation)
    returns (found: Option<string>, requestsLeft: seq<Traffic>, responsesLeft: seq<Traffic>)
    ensures found == First(PollCandidates(requests, responses, obs))
    ensures found.None? ==> requestsLeft == [] && responsesLeft == []
    ensures QueueCandidates(Outgoing, requests) != [] ==> responsesLeft == responses
  {
    RoundPriority(requests, responses, obs);
    found, requestsLeft := Drain(Outgoing, requests);
    if found.Some? {
      return found, requestsLeft, responses;
    }
    found, responsesLeft := Drain(Incoming, responses);
    if found.Some? {
      return;
    }
    if obs.cookies.Some? {
      found := ScanEntries(obs.cookies.value);
      if found.Some? {
        return;
      }
    }
    if obs.storages.Some? {
      found := ScanEntries(obs.storages.value.local);
      if found.Some? {
        return;
      }
      found := ScanEntries(obs.storages.value.session);
    }
  }

  /** `get_search_session`: the cached id if there is one; otherwise poll round by round until
      some source yields a value, save it and return it; None on timeout or if the site did
      not open. */
  method GetSearchSession(w: World) returns (r: Option<string>, cacheAfter: CacheFile)
    ensures r == SelectSession(w)
    ensures CacheUpdated(w, r, cacheAfter)
  {
    var cached := LoadCachedSession(w.cache);
    if cached.Some? {
      return cached, w.cache;
    }
    if !w.siteOpened {
      return None, w.cache;
    }
    var requestsSeen: seq<Traffic> := [];
    var responsesSeen: seq<Traffic> := [];
    var k := 0;
    while k < |w.rounds|
      invariant 0 <= k <= |w.rounds|
      invariant requestsSeen == [] && responsesSeen == []
      invariant AllCandidates(w.rounds[..k]) == []
    {
      var obs := w.rounds[k];
      requestsSeen := requestsSeen + Buffered(obs.requests);
      responsesSeen := responsesSeen + Buffered(obs.responses);
      assert requestsSeen == Buffered(obs.requests) && responsesSeen == Buffered(obs.responses);
      var found;
      found, requestsSeen, responsesSeen := PollRound(requestsSeen, responsesSeen, obs);
      RoundStep(w.rounds, k);
      if found.Some? {
        RoundSplit(w.rounds, k);
        FirstConcat(RoundCandidates(obs), AllCandidates(w.rounds[k + 1..]));
        return found, SaveSession(found.value);
      }
      k := k + 1;
    }
    assert w.rounds[..k] == w.rounds;
    return None, w.cache;
  }
}
