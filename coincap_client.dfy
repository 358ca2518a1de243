/**
 * The CoinCap API client: request headers, query parameters, the retry loop
 * around each HTTP request, and the checking of the `{"data": [...]}`
 * envelope of an answer.
 *
 * The network is a `Transport` whose n-th request receives the fixed answer
 * `respond(n)`: a status with a body, a timeout, or a failed connection.
 */
module CoinCap {
  import opened Wrappers
  import opened Domain

  /** Requests issued for one call before giving up. */
  const MaxRetries: nat := 3

  /** A value of the query string. */
  datatype Param = Text(text: string) | Number(number: int)

  /** One element of the `data` list of an answer, by the shape it has. */
  datatype Item = HistoryItem(history: ApiHistory) | MarketItem(market: ApiMarket) | OtherItem

  /** A response body: an envelope with a `data` list, other JSON, or text that is not JSON. */
  datatype Payload = DataList(items: seq<Item>) | OtherJson | NotJson

  /** What one HTTP request gets back. */
  datatype Exchange =
    | Reply(status: int, body: Payload)
    | TimedOut
    | Unreachable(reason: string)   // every other transport error

  /** The exceptions a client call raises. */
  datatype ApiError =
    | HttpStatus(code: int)         // a non-2xx status
    | Timeout
    | RequestFailed(reason: string)
    | Undecodable                   // a 2xx body that is not JSON
    | Invalid                       // JSON that is not the expected envelope

  datatype Request = Request(verb: string, path: string, params: map<string, Param>, headers: map<string, string>)

  function Repeat<T>(x: T, n: nat): seq<T>
  {
    seq(n, _ => x)
  }

  // ---------------------------------------------------------------- headers

  /** Python truthiness of an optional string: neither None nor empty. */
  predicate Truthy(s: Option<string>)
  {
    s.Some? && s.value != ""
  }

  /** The headers every request carries. */
  function DefaultHeaders(apiKey: Option<string>): (h: map<string, string>)
    ensures "Accept" in h && h["Accept"] == "application/json"
    ensures "Content-Type" in h && h["Content-Type"] == "application/json"
    ensures "Authorization" in h <==> Truthy(apiKey)
    ensures Truthy(apiKey) ==> h["Authorization"] == "Bearer " + apiKey.value
    ensures h.Keys <= {"Accept", "Content-Type", "Authorization"}
  {
    var base := map["Accept" := "application/json", "Content-Type" := "application/json"];
    if Truthy(apiKey) then base["Authorization" := "Bearer " + apiKey.value] else base
  }

  /** Builds the headers by insertion into a dictionary. */
  method GetHeaders(apiKey: Option<string>) returns (headers: map<string, string>)
    ensures headers == DefaultHeaders(apiKey)
  {
    headers := map[];
    headers := headers["Accept" := "application/json"];
    headers := headers["Content-Type" := "application/json"];
    if apiKey.Some? && apiKey.value != "" {
      headers := headers["Authorization" := "Bearer " + apiKey.value];
    }
  }

  // ------------------------------------------------------- query parameters

  function HistoryPath(assetId: AssetId): string
  {
    "/assets/" + assetId + "/history"
  }

  function MarketsPath(assetId: AssetId): string
  {
    "/assets/" + assetId + "/markets"
  }

  /** Query of a history request: `interval` always, `start` and `end` when given. */
  function HistoryQuery(interval: string, start: Option<int>, end: Option<int>): (p: map<string, Param>)
    ensures "interval" in p && p["interval"] == Text(interval)
    ensures "start" in p <==> start.Some?
    ensures start.Some? ==> p["start"] == Number(start.value)
    ensures "end" in p <==> end.Some?
    ensures end.Some? ==> p["end"] == Number(end.value)
    ensures p.Keys <= {"interval", "start", "end"}
  {
    var p := map["interval" := Text(interval)];
    var p := if start.Some? then p["start" := Number(start.value)] else p;
    if end.Some? then p["end" := Number(end.value)] else p
  }

  /** Builds the history query by insertion into a dictionary. */
  method BuildHistoryParams(interval: string, start: Option<int>, end: Option<int>) returns (params: map<string, Param>)
    ensures params == HistoryQuery(interval, start, end)
  {
    params := map["interval" := Text(interval)];
    if start.Some? {
      params := params["start" := Number(start.value)];
    }
    if end.Some? {
      params := params["end" := Number(end.value)];
    }
  }

  /** Query of a markets request: always both `limit` and `offset`. */
  function MarketsQuery(limit: int, offset: int): (p: map<string, Param>)
    ensures p.Keys == {"limit", "offset"}
    ensures p["limit"] == Number(limit) && p["offset"] == Number(offset)
  {
    map["limit" := Number(limit), "offset" := Number(offset)]
  }

  // ------------------------------------------------------------ retry policy

  /** Answers the loop tries again on: a 429 status or a timeout. */
  predicate Retryable(e: Exchange)
  {
    e.TimedOut? || (e.Reply? && e.status == 429)
  }

  /** The answer to the request numbered `base + j` is retryable. */
  predicate RetryableAt(respond: nat -> Exchange, base: nat, j: nat)
  {
    Retryable(respond(base + j))
  }

  predicate IsSuccessStatus(status: int)
  {
    200 <= status < 300
  }

  /** What a call returns or raises when it stops at answer `e`. */
  function Final(e: Exchange): (r: Result<Payload, ApiError>)
    ensures r.Success? <==> e.Reply? && IsSuccessStatus(e.status) && !e.body.NotJson?
    ensures r.Success? ==> r.value == e.body
    ensures e.Reply? && !IsSuccessStatus(e.status) ==> r == Failure(HttpStatus(e.status))
    ensures e.Reply? && IsSuccessStatus(e.status) && e.body.NotJson? ==> r == Failure(Undecodable)
    ensures e.TimedOut? ==> r == Failure(Timeout)
    ensures e.Unreachable? ==> r == Failure(RequestFailed(e.reason))
  {
    match e
    case Reply(status, body) =>
      if !IsSuccessStatus(status) then Failure(HttpStatus(status))
      else if body.NotJson? then Failure(Undecodable)
      else Success(body)
    case TimedOut => Failure(Timeout)
    case Unreachable(reason) => Failure(RequestFailed(reason))
  }

  datatype Step = Again | Stop(result: Result<Payload, ApiError>)

  /** The decision the loop takes on answer `e` at attempt number `attempt` (from 0). */
  function Settle(e: Exchange, attempt: nat): (s: Step)
    ensures s.Again? <==> Retryable(e) && attempt < MaxRetries - 1
    ensures s.Stop? ==> s.result == Final(e)
  {
    match e
    case Reply(status, body) =>
      if IsSuccessStatus(status) then Stop(Final(e))
      else if status == 429 && attempt < MaxRetries - 1 then Again
      else Stop(Final(e))
    case TimedOut =>
      if attempt < MaxRetries - 1 then Again else Stop(Final(e))
    case Unreachable(_) => Stop(Final(e))
  }

  /** The outcome of a call and the number of requests it issued. */
  datatype Run = Run(result: Result<Payload, ApiError>, issued: nat)

  /**
   * The call from attempt `attempt` on, when the n-th request overall is
   * answered by `respond(n)` and `base` requests were issued before the call.
   */
  function Attempts(respond: nat -> Exchange, base: nat, attempt: nat): (r: Run)
    requires attempt < MaxRetries
    ensures attempt < r.issued <= MaxRetries
    decreases MaxRetries - attempt
  {
    match Settle(respond(base + attempt), attempt)
    case Stop(result) => Run(result, attempt + 1)
    case Again => Attempts(respond, base, attempt + 1)
  }

  /**
   * A call stops at the first answer that is not retryable, or at the last
   * permitted attempt, and returns or raises what that answer means; every
   * earlier answer was a 429 or a timeout.
   */
  lemma {:induction false} AttemptsStopAtFirstFinal(respond: nat -> Exchange, base: nat, attempt: nat, k: nat)
    requires attempt <= k < MaxRetries
    requires forall j :: attempt <= j < k ==> RetryableAt(respond, base, j)
    requires !Retryable(respond(base + k)) || k == MaxRetries - 1
    ensures Attempts(respond, base, attempt) == Run(Final(respond(base + k)), k + 1)
    decreases k - attempt
  {
    if attempt < k {
      assert RetryableAt(respond, base, attempt);
      AttemptsStopAtFirstFinal(respond, base, attempt + 1, k);
    }
  }

  /** Conversely, every call is of that form. */
  lemma {:induction false} AttemptsHaveFinalForm(respond: nat -> Exchange, base: nat, attempt: nat)
    requires attempt < MaxRetries
    ensures var r := Attempts(respond, base, attempt);
      && (forall j :: attempt <= j < r.issued - 1 ==> RetryableAt(respond, base, j))
      && (!Retryable(respond(base + r.issued - 1)) || r.issued == MaxRetries)
      && r.result == Final(respond(base + r.issued - 1))
    decreases MaxRetries - attempt
  {
    if Settle(respond(base + attempt), attempt).Again? {
      AttemptsHaveFinalForm(respond, base, attempt + 1);
    }
  }

  /** A whole call written out over its (at most three) answers. */
  function Policy(a0: Exchange, a1: Exchange, a2: Exchange): Run
  {
    if !Retryable(a0) then Run(Final(a0), 1)
    else if !Retryable(a1) then Run(Final(a1), 2)
    else Run(Final(a2), 3)
  }

  lemma AttemptsMatchPolicy(respond: nat -> Exchange, base: nat)
    ensures Attempts(respond, base, 0) == Policy(respond(base), respond(base + 1), respond(base + 2))
  {
    if !Retryable(respond(base)) {
      AttemptsStopAtFirstFinal(respond, base, 0, 0);
    } else if !Retryable(respond(base + 1)) {
      AttemptsStopAtFirstFinal(respond, base, 0, 1);
    } else {
      AttemptsStopAtFirstFinal(respond, base, 0, 2);
    }
  }

  // ------------------------------------------------------------- envelopes

  /** The history entries of a `{"data": [...]}` answer, if every entry is one. */
  function HistoryData(items: seq<Item>): (r: Option<seq<ApiHistory>>)
    ensures r.Some? <==> forall i :: 0 <= i < |items| ==> items[i].HistoryItem?
    ensures r.Some? ==> |r.value| == |items| && forall i :: 0 <= i < |items| ==> r.value[i] == items[i].history
  {
    if items == [] then Some([])
    else if !items[0].HistoryItem? then None
    else
      match HistoryData(items[1..])
      case None => None
      case Some(rest) => Some([items[0].history] + rest)
  }

  /** The market entries of a `{"data": [...]}` answer, if every entry is one. */
  function MarketData(items: seq<Item>): (r: Option<seq<ApiMarket>>)
    ensures r.Some? <==> forall i :: 0 <= i < |items| ==> items[i].MarketItem?
    ensures r.Some? ==> |r.value| == |items| && forall i :: 0 <= i < |items| ==> r.value[i] == items[i].market
  {
    if items == [] then Some([])
    else if !items[0].MarketItem? then None
    else
      match MarketData(items[1..])
      case None => None
      case Some(rest) => Some([items[0].market] + rest)
  }

  /** Validation of an answer as a history envelope: its entries, or the error raised. */
  function AsHistory(p: Result<Payload, ApiError>): (r: Result<seq<ApiHistory>, ApiError>)
    ensures p.Failure? ==> r == Failure(p.error)
    ensures r.Success? <==> p.Success? && p.value.DataList? && forall i :: 0 <= i < |p.value.items| ==> p.value.items[i].HistoryItem?
    ensures r.Success? ==> |r.value| == |p.value.items| && forall i :: 0 <= i < |r.value| ==> r.value[i] == p.value.items[i].history
    ensures p.Success? && r.Failure? ==> r.error == Invalid
  {
    match p
    case Failure(e) => Failure(e)
    case Success(DataList(items)) =>
      (match HistoryData(items) case Some(d) => Success(d) case None => Failure(Invalid))
    case Success(_) => Failure(Invalid)
  }

  /** Validation of an answer as a markets envelope: its entries, or the error raised. */
  function AsMarkets(p: Result<Payload, ApiError>): (r: Result<seq<ApiMarket>, ApiError>)
    ensures p.Failure? ==> r == Failure(p.error)
    ensures r.Success? <==> p.Success? && p.value.DataList? && forall i :: 0 <= i < |p.value.items| ==> p.value.items[i].MarketItem?
    ensures r.Success? ==> |r.value| == |p.value.items| && forall i :: 0 <= i < |r.value| ==> r.value[i] == p.value.items[i].market
    ensures p.Success? && r.Failure? ==> r.error == Invalid
  {
    match p
    case Failure(e) => Failure(e)
    case Success(DataList(items)) =>
      (match MarketData(items) case Some(d) => Success(d) case None => Failure(Invalid))
    case Success(_) => Failure(Invalid)
  }

  // ----------------------------------------------------------------- classes

  /** The HTTP connection: the n-th request it sends is answered by `respond(n)`. */
  class Transport {
    const respond: nat -> Exchange
    var sent: seq<Request>

    constructor (respond: nat -> Exchange)
      ensures this.respond == respond && sent == []
    {
      this.respond := respond;
      sent := [];
    }

    method Send(req: Request) returns (e: Exchange)
      modifies this
      ensures e == respond(|old(sent)|)
      ensures sent == old(sent) + [req]
    {
      e := respond(|sent|);
      sent := sent + [req];
    }
  }

  class CoinCapClient {
    const apiKey: Option<string>
    const headers: map<string, string>
    const transport: Transport

    constructor (apiKey: Option<string>, transport: Transport)
      ensures this.apiKey == apiKey && this.transport == transport
      ensures headers == DefaultHeaders(apiKey)
    {
      var h := GetHeaders(apiKey);
      this.apiKey := apiKey;
      this.transport := transport;
      headers := h;
    }

    function HistoryRequest(assetId: AssetId, interval: string, start: Option<int>, end: Option<int>): Request
    {
      Request("GET", HistoryPath(assetId), HistoryQuery(interval, start, end), headers)
    }

    function MarketsRequest(assetId: AssetId, limit: int, offset: int): Request
    {
      Request("GET", MarketsPath(assetId), MarketsQuery(limit, offset), headers)
    }

    /**
     * Sends the request up to MaxRetries times: a 2xx answer returns its
     * JSON body, a 429 or a timeout is retried unless it was the last
     * attempt, and every other failure is raised at once.
     */
    method MakeRequest(verb: string, path: string, params: map<string, Param>) returns (r: Result<Payload, ApiError>)
      modifies transport
      ensures var run := Attempts(transport.respond, |old(transport.sent)|, 0);
        && r == run.result
        && transport.sent == old(transport.sent) + Repeat(Request(verb, path, params, headers), run.issued)
    {
      var req := Request(verb, path, params, headers);
      ghost var base := |transport.sent|;
      for attempt := 0 to MaxRetries
        invariant attempt < MaxRetries
        invariant transport.sent == old(transport.sent) + Repeat(req, attempt)
        invariant Attempts(transport.respond, base, attempt) == Attempts(transport.respond, base, 0)
      {
        var reply := transport.Send(req);
        assert transport.sent == old(transport.sent) + Repeat(req, attempt + 1);
        if reply.Reply? {
          if 200 <= reply.status < 300 {
            if reply.body.NotJson? {
              r := Failure(Undecodable);
            } else {
              r := Success(reply.body);
            }
            return;
          }
          if reply.status == 429 && attempt < MaxRetries - 1 {
            continue;
          }
          r := Failure(HttpStatus(reply.status));
          return;
        } else if reply.TimedOut? {
          if attempt < MaxRetries - 1 {
            continue;
          }
          r := Failure(Timeout);
          return;
        } else {
          r := Failure(RequestFailed(reply.reason));
          return;
        }
      }
      assert false;
    }

    /** The price history of `assetId`, with `start` and `end` in epoch milliseconds. */
    method GetHistory(assetId: AssetId, interval: string, start: Option<int>, end: Option<int>)
      returns (r: Result<seq<ApiHistory>, ApiError>)
      modifies transport
      ensures var run := Attempts(transport.respond, |old(transport.sent)|, 0);
        && r == AsHistory(run.result)
        && transport.sent == old(transport.sent) + Repeat(HistoryRequest(assetId, interval, start, end), run.issued)
    {
      var params := BuildHistoryParams(interval, start, end);
      var response := MakeRequest("GET", HistoryPath(assetId), params);
      r := AsHistory(response);
    }

    /** One page of the markets of `assetId`. */
    method GetMarkets(assetId: AssetId, limit: int, offset: int) returns (r: Result<seq<ApiMarket>, ApiError>)
      modifies transport
      ensures var run := Attempts(transport.respond, |old(transport.sent)|, 0);
        && r == AsMarkets(run.result)
        && transport.sent == old(transport.sent) + Repeat(MarketsRequest(assetId, limit, offset), run.issued)
    {
      var params := MarketsQuery(limit, offset);
      var response := MakeRequest("GET", MarketsPath(assetId), params);
      r := AsMarkets(response);
    }
  }
}
