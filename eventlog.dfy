/** The `logs` generator (mailgunlog/mailgunlog.py:14-54): it builds the
    query parameters once, then requests page after page, following each
    page's `paging.next` link without parameters, until a page comes back
    with no items. The HTTP client is a scripted, finite sequence of
    responses; the generator's yields are appended to `records` in order. */
module EventLog {
  import opened Wrappers
  import opened Strings

  const EventsBase: string := "https://api.eu.mailgun.net/v3/"

  /** The first request's URL. */
  function EventsUrl(domain: string): string {
    EventsBase + domain + "/events"
  }

  /** Query parameters, in the dict's insertion order. */
  type Params = seq<(string, string)>

  /** The value under `key`, if the parameters hold one. */
  function Lookup(ps: Params, key: string): Option<string> {
    if ps == [] then None
    else if ps[0].0 == key then Some(ps[0].1)
    else Lookup(ps[1..], key)
  }

  /** Lines 17-30: `begin`, `end` and `severity` when truthy, `ascending=no`
      when `end` is not, and `event=failed` only for the type `failed`. */
  function QueryParams(begin: Option<string>, end: Option<string>, eventType: Option<string>,
                       severity: Option<string>): (ps: Params)
    ensures 1 <= |ps| <= 4
    ensures forall i :: 0 <= i < |ps| ==> ps[i].0 in {"begin", "end", "ascending", "severity", "event"}
    ensures forall i, j :: 0 <= i < j < |ps| ==> ps[i].0 != ps[j].0
  {
    (if Truthy(begin) then [("begin", begin.value)] else [])
    + (if Truthy(end) then [("end", end.value)] else [("ascending", "no")])
    + (if Truthy(severity) then [("severity", severity.value)] else [])
    + (if eventType == Some("failed") then [("event", "failed")] else [])
  }

  lemma {:induction false} LookupAppend(a: Params, b: Params, key: string)
    ensures Lookup(a + b, key) == if Lookup(a, key).Some? then Lookup(a, key) else Lookup(b, key)
  {
    if a == [] {
      assert a + b == b;
    } else {
      assert (a + b)[1..] == a[1..] + b;
      LookupAppend(a[1..], b, key);
    }
  }

  /** What each parameter is: `begin`, `end` and `severity` are sent exactly
      when truthy and carry the given text; `ascending=no` is sent exactly
      when `end` is not; `event=failed` exactly when the type is `failed`;
      no other key is ever sent. */
  lemma QueryParamsContents(begin: Option<string>, end: Option<string>, eventType: Option<string>,
                            severity: Option<string>)
    ensures var ps := QueryParams(begin, end, eventType, severity);
      && Lookup(ps, "begin") == (if Truthy(begin) then begin else None)
      && Lookup(ps, "end") == (if Truthy(end) then end else None)
      && Lookup(ps, "ascending") == (if Truthy(end) then None else Some("no"))
      && Lookup(ps, "severity") == (if Truthy(severity) then severity else None)
      && Lookup(ps, "event") == (if eventType == Some("failed") then Some("failed") else None)
      && forall i :: 0 <= i < |ps| ==> ps[i].0 in {"begin", "end", "ascending", "severity", "event"}
  {
    QueryParamsWindow(begin, end, eventType, severity);
    QueryParamsFilters(begin, end, eventType, severity);
  }

  lemma QueryParamsWindow(begin: Option<string>, end: Option<string>, eventType: Option<string>,
                          severity: Option<string>)
    ensures var ps := QueryParams(begin, end, eventType, severity);
      && Lookup(ps, "begin") == (if Truthy(begin) then begin else None)
      && Lookup(ps, "end") == (if Truthy(end) then end else None)
      && Lookup(ps, "ascending") == (if Truthy(end) then None else Some("no"))
  {
    var b: Params := if Truthy(begin) then [("begin", begin.value)] else [];
    var e: Params := if Truthy(end) then [("end", end.value)] else [("ascending", "no")];
    var s: Params := if Truthy(severity) then [("severity", severity.value)] else [];
    var t: Params := if eventType == Some("failed") then [("event", "failed")] else [];
    assert QueryParams(begin, end, eventType, severity) == b + e + s + t;
    assert "begin" != "end" && "begin" != "ascending" && "begin" != "severity" && "begin" != "event";
    assert "end" != "ascending" && "end" != "severity" && "end" != "event";
    assert "ascending" != "severity" && "ascending" != "event";
    LookupChain(b, e, s, t, "begin");
    LookupChain(b, e, s, t, "end");
    LookupChain(b, e, s, t, "ascending");
  }

  lemma QueryParamsFilters(begin: Option<string>, end: Option<string>, eventType: Option<string>,
                           severity: Option<string>)
    ensures var ps := QueryParams(begin, end, eventType, severity);
      && Lookup(ps, "severity") == (if Truthy(severity) then severity else None)
      && Lookup(ps, "event") == (if eventType == Some("failed") then Some("failed") else None)
  {
    var b: Params := if Truthy(begin) then [("begin", begin.value)] else [];
    var e: Params := if Truthy(end) then [("end", end.value)] else [("ascending", "no")];
    var s: Params := if Truthy(severity) then [("severity", severity.value)] else [];
    var t: Params := if eventType == Some("failed") then [("event", "failed")] else [];
    assert QueryParams(begin, end, eventType, severity) == b + e + s + t;
    assert "begin" != "severity" && "begin" != "event";
    assert "end" != "severity" && "end" != "event";
    assert "ascending" != "severity" && "ascending" != "event" && "severity" != "event";
    LookupChain(b, e, s, t, "severity");
    LookupChain(b, e, s, t, "event");
  }

  lemma LookupChain(b: Params, e: Params, s: Params, t: Params, key: string)
    ensures Lookup(b + e + s + t, key) ==
        if Lookup(b, key).Some? then Lookup(b, key)
        else if Lookup(e, key).Some? then Lookup(e, key)
        else if Lookup(s, key).Some? then Lookup(s, key)
        else Lookup(t, key)
  {
    LookupAppend(b + e + s, t, key);
    LookupAppend(b + e, s, key);
    LookupAppend(b, e, key);
  }

  /** One scripted HTTP response, already decoded: its status code, the
      page's `items`, and its `paging.next` link (`None` when missing). */
  datatype Response<T> = Response(status: int, items: seq<T>, next: Option<string>)

  /** `response.ok`: the status is not a 4xx or 5xx code. */
  predicate IsOk(status: int) {
    !(400 <= status < 600)
  }

  /** One request issued: the URL and the parameters sent with it. */
  datatype Request = Request(url: string, params: Option<Params>)

  /** How the generator ends. */
  datatype Outcome =
    | Finished                   // a page without items: the generator returns
    | UpstreamError(status: int) // ValueError('Invalid status_code: ...')
    | MissingNext                // KeyError: a page with items but no paging.next
    | Exhausted                  // the script ran out while the server would still be asked

  /** A response after which the loop asks for the next page. */
  predicate Continues<T>(r: Response<T>) {
    IsOk(r.status) && r.items != [] && r.next.Some?
  }

  /** The index of the first response after which the loop does not go on,
      or the script's length if every response lets it go on. */
  function StopIndex<T>(script: seq<Response<T>>): (k: nat)
    ensures k <= |script|
    ensures forall i :: 0 <= i < k ==> Continues(script[i])
    ensures k < |script| ==> !Continues(script[k])
  {
    if script == [] || !Continues(script[0]) then 0 else 1 + StopIndex(script[1..])
  }

  /** The items of the pages, page after page. */
  function Concat<T>(pages: seq<Response<T>>): seq<T> {
    if pages == [] then [] else Concat(pages[..|pages| - 1]) + pages[|pages| - 1].items
  }

  /** How the generator ends on this script. */
  function ExpectedOutcome<T>(script: seq<Response<T>>): Outcome {
    var k := StopIndex(script);
    if k == |script| then Exhausted
    else if !IsOk(script[k].status) then UpstreamError(script[k].status)
    else if script[k].items == [] then Finished
    else MissingNext
  }

  /** What the generator yields on this script: the items of every page it
      goes on from, and those of the page it stops at unless that page
      failed. */
  function ExpectedRecords<T>(script: seq<Response<T>>): seq<T> {
    var k := StopIndex(script);
    Concat(script[..k]) + (if k < |script| && IsOk(script[k].status) then script[k].items else [])
  }

  /** The requests the generator issues: `first`, then one per page it goes
      on from, to that page's `paging.next` and without parameters. */
  function ExpectedRequests<T>(first: Request, script: seq<Response<T>>): seq<Request> {
    var k := StopIndex(script);
    [first] + seq(k, i requires 0 <= i < k => Request(script[i].next.value, None))
  }

  /** `list(logs(domain, api_key, begin, end, type, severity))` against a
      server that answers the requests with `script`, one response each:
      the loop of lines 32-54, with the yields collected in `records`. */
  method Logs<T>(domain: string, begin: Option<string>, end: Option<string>, eventType: Option<string>,
                 severity: Option<string>, script: seq<Response<T>>)
    returns (outcome: Outcome, requests: seq<Request>, records: seq<T>)
    ensures outcome == ExpectedOutcome(script)
    ensures requests == ExpectedRequests(Request(EventsUrl(domain), Some(QueryParams(begin, end, eventType, severity))), script)
    ensures records == ExpectedRecords(script)
  {
    var url := EventsUrl(domain);
    var params: Option<Params> := Some(QueryParams(begin, end, eventType, severity));
    ghost var first := Request(url, params);
    ghost var k := StopIndex(script);
    ghost var expected := ExpectedRequests(first, script);
    requests, records := [], [];
    var n := 0;
    while true
      invariant n <= k
      invariant requests == expected[..n]
      invariant records == Concat(script[..n])
      invariant n == 0 ==> url == first.url && params == first.params
      invariant n > 0 ==> url == script[n - 1].next.value && params == None
      decreases |script| - n
    {
      RequestAt(first, script, n);
      assert expected[..n + 1] == expected[..n] + [Request(url, params)];
      requests := requests + [Request(url, params)];
      if n == |script| {
        assert expected[..n + 1] == expected;
        outcome := Exhausted;
        return;
      }
      var response := script[n];
      if !IsOk(response.status) {
        assert expected[..n + 1] == expected;
        outcome := UpstreamError(response.status);
        return;
      }
      var items := response.items;
      records := YieldAll(records, items);
      if items == [] {
        assert expected[..n + 1] == expected;
        outcome := Finished;
        return;
      }
      if response.next.None? {
        assert expected[..n + 1] == expected;
        outcome := MissingNext;
        return;
      }
      url := response.next.value;
      params := None;
      assert script[..n + 1][..n] == script[..n];
      n := n + 1;
    }
  }

  /** Lines 45-46: `for record in items: yield record`, one item after another. */
  method YieldAll<T>(records: seq<T>, items: seq<T>) returns (out: seq<T>)
    ensures out == records + items
  {
    out := records;
    var j := 0;
    while j < |items|
      invariant 0 <= j <= |items|
      invariant out == records + items[..j]
    {
      out := out + [items[j]];
      j := j + 1;
    }
    assert items[..j] == items;
  }

  /** The request issued for page `n`: `first`, or the previous page's link. */
  lemma RequestAt<T>(first: Request, script: seq<Response<T>>, n: nat)
    requires n <= StopIndex(script)
    ensures |ExpectedRequests(first, script)| == StopIndex(script) + 1
    ensures ExpectedRequests(first, script)[n] ==
              if n == 0 then first else Request(script[n - 1].next.value, None)
  {
  }

  /** The pages' items concatenate piecewise. */
  lemma {:induction false} ConcatAppend<T>(a: seq<Response<T>>, b: seq<Response<T>>)
    ensures Concat(a + b) == Concat(a) + Concat(b)
  {
    if b == [] {
      assert a + b == a;
    } else {
      assert (a + b)[..|a + b| - 1] == a + b[..|b| - 1];
      ConcatAppend(a, b[..|b| - 1]);
    }
  }

  /** Only the first request carries the query parameters; every later one
      goes to the previous page's `paging.next` link with none. */
  lemma ParamsOnlyOnFirstRequest<T>(first: Request, script: seq<Response<T>>)
    ensures var reqs := ExpectedRequests(first, script);
      && |reqs| == StopIndex(script) + 1
      && reqs[0] == first
      && forall i :: 1 <= i < |reqs| ==>
           reqs[i].params.None? && script[i - 1].next == Some(reqs[i].url)
  {
  }

  /** The position at which the loop stops is the first response after
      which it does not go on. */
  lemma StopIndexIs<T>(script: seq<Response<T>>, n: nat)
    requires n < |script| && !Continues(script[n])
    requires forall i :: 0 <= i < n ==> Continues(script[i])
    ensures StopIndex(script) == n
  {
  }

  /** If every page before page `n` has items and a link, and page `n` comes
      back OK and empty, the generator yields the items of pages 0 to n-1 in
      order, issues exactly n+1 requests and returns normally. */
  lemma FinishesAtFirstEmptyPage<T>(first: Request, script: seq<Response<T>>, n: nat)
    requires n < |script|
    requires forall i :: 0 <= i < n ==> Continues(script[i])
    requires IsOk(script[n].status) && script[n].items == []
    ensures ExpectedOutcome(script) == Finished
    ensures ExpectedRecords(script) == Concat(script[..n])
    ensures |ExpectedRequests(first, script)| == n + 1
  {
    StopIndexIs(script, n);
  }

  /** A response that is not OK ends the generator at once with its status:
      none of its items is yielded and no further request is issued. */
  lemma ErrorStopsAtOnce<T>(first: Request, script: seq<Response<T>>, n: nat)
    requires n < |script|
    requires forall i :: 0 <= i < n ==> Continues(script[i])
    requires !IsOk(script[n].status)
    ensures ExpectedOutcome(script) == UpstreamError(script[n].status)
    ensures ExpectedRecords(script) == Concat(script[..n])
    ensures |ExpectedRequests(first, script)| == n + 1
  {
    StopIndexIs(script, n);
  }

  /** A page with items but no `paging.next` link yields its items and
      then raises `KeyError`; nothing more is requested. */
  lemma MissingLinkAfterItems<T>(first: Request, script: seq<Response<T>>, n: nat)
    requires n < |script|
    requires forall i :: 0 <= i < n ==> Continues(script[i])
    requires IsOk(script[n].status) && script[n].items != [] && script[n].next.None?
    ensures ExpectedOutcome(script) == MissingNext
    ensures ExpectedRecords(script) == Concat(script[..n + 1])
    ensures |ExpectedRequests(first, script)| == n + 1
  {
    StopIndexIs(script, n);
    assert script[..n + 1][..n] == script[..n];
  }

  /** The records yielded before page `n` is requested are exactly the items
      of pages 0 to n-1, and they come first in what the generator yields. */
  lemma RecordsArePagesInOrder<T>(script: seq<Response<T>>, n: nat)
    requires n <= StopIndex(script)
    ensures Concat(script[..n]) <= ExpectedRecords(script)
  {
    var k := StopIndex(script);
    assert script[..k] == script[..n] + script[n..k];
    ConcatAppend(script[..n], script[n..k]);
  }
}
