/**
 * The HTTP helper used for the catalog download: up to `num_of_tries` attempts,
 * every exception raised by an attempt swallowed, the loop left at the first
 * attempt that returns, and that attempt's status then checked against 200.
 * The network is a parameter: the outcome of each successive attempt.
 */
module Gateway {
  import opened Wrappers
  import opened Text

  type Headers = map<string, string>

  /** What one attempt of the HTTP library does: raise, or return a status and a body. */
  datatype Attempt = Raises | Returns(status: int, content: string)

  /** A request handed to the HTTP library. */
  datatype Call =
    | Get(url: string, headers: Headers, params: map<string, string>, timeout: int)
    | PostForm(url: string, data: map<string, string>, files: map<string, string>, timeout: int)
    | PostJson(url: string, headers: Headers, json: map<string, string>, timeout: int)
    | Patch(url: string, headers: Headers, rawBody: string, timeout: int)

  /** The two exceptions the helper raises itself. */
  datatype RequestError =
    | RequestFailed(numOfTries: int)     // no attempt returned
    | UnexpectedStatus(content: string)  // the attempt that returned had a status other than 200

  /** The exception's message. */
  function ErrorMessage(e: RequestError): string {
    match e
    case RequestFailed(n) => "The request failed " + IntToString(n) + " times."
    case UnexpectedStatus(content) => content
  }

  const ExpectedStatus := 200

  /** The request types the helper knows; any other one raises inside the attempt. */
  predicate Supported(requestType: string) {
    requestType == "GET" || requestType == "POST" || requestType == "PATCH"
  }

  const JsonHeaders: Headers := map["Content-Type" := "application/json"]

  /** The headers of a GET: the caller's, or a JSON content type with the bearer token when the caller gave none. */
  function GetHeaders(requestHeaders: Option<Headers>, bearer: string): (h: Headers)
    ensures requestHeaders.Some? ==> h == requestHeaders.value
    ensures requestHeaders.None? ==> h.Keys == {"Content-Type", "Authorization"}
    ensures requestHeaders.None? ==> h["Content-Type"] == "application/json" && h["Authorization"] == bearer
  {
    if requestHeaders.Some? then requestHeaders.value
    else map["Content-Type" := "application/json", "Authorization" := bearer]
  }

  /** The request every attempt of a supported request type issues. */
  function CallFor(requestType: string, url: string, requestBody: map<string, string>, requestJson: string,
                   bearer: string, timeout: int, media: Option<map<string, string>>,
                   requestHeaders: Option<Headers>): Call
    requires Supported(requestType)
  {
    if requestType == "GET" then Get(url, GetHeaders(requestHeaders, bearer), requestBody, timeout)
    else if requestType == "POST" then
      if media.Some? then PostForm(url, requestBody, media.value, timeout)
      else PostJson(url, JsonHeaders, requestBody, timeout)
    else Patch(url, JsonHeaders, requestJson, timeout)
  }

  /** The number of attempts `num_of_tries` allows. */
  function Budget(numOfTries: int): nat {
    if numOfTries < 0 then 0 else numOfTries
  }

  /** The index of the first attempt that returns, or `|network|` when every attempt raises. */
  function FirstReturn(network: seq<Attempt>): (k: nat)
    ensures k <= |network|
    ensures forall j :: 0 <= j < k ==> network[j].Raises?
    ensures k < |network| ==> network[k].Returns?
  {
    if network == [] then 0
    else if network[0].Returns? then 0
    else 1 + FirstReturn(network[1..])
  }

  /** Whether some attempt within the budget goes through. */
  predicate Succeeds(requestType: string, numOfTries: int, network: seq<Attempt>)
    requires Budget(numOfTries) <= |network|
  {
    Supported(requestType) && FirstReturn(network[..Budget(numOfTries)]) < Budget(numOfTries)
  }

  /** How many attempts are made: up to and including the first that returns, else the whole budget. */
  function AttemptCount(requestType: string, numOfTries: int, network: seq<Attempt>): nat
    requires Budget(numOfTries) <= |network|
  {
    if Succeeds(requestType, numOfTries, network)
    then FirstReturn(network[..Budget(numOfTries)]) + 1
    else Budget(numOfTries)
  }

  /** What the helper returns (the body to be parsed as JSON) or raises. */
  function Outcome(requestType: string, numOfTries: int, network: seq<Attempt>): Result<string, RequestError>
    requires Budget(numOfTries) <= |network|
  {
    if !Succeeds(requestType, numOfTries, network) then Err(RequestFailed(numOfTries))
    else
      var answer := network[FirstReturn(network[..Budget(numOfTries)])];
      if answer.status != ExpectedStatus then Err(UnexpectedStatus(answer.content))
      else Ok(answer.content)
  }

  /**
   * `run_request`: `network[i]` is what the HTTP library does on attempt `i`.
   * Returns the result, the requests issued and the number of attempts made.
   */
  method RunRequest(requestType: string, url: string, requestBody: map<string, string>, requestJson: string,
                    bearer: string, timeout: int, media: Option<map<string, string>>,
                    requestHeaders: Option<Headers>, numOfTries: int, network: seq<Attempt>)
    returns (r: Result<string, RequestError>, calls: seq<Call>, attempts: nat)
    requires Budget(numOfTries) <= |network|
    ensures r == Outcome(requestType, numOfTries, network)
    ensures attempts == AttemptCount(requestType, numOfTries, network)
    ensures |calls| == if Supported(requestType) then attempts else 0
    ensures forall i :: 0 <= i < |calls| ==>
      calls[i] == CallFor(requestType, url, requestBody, requestJson, bearer, timeout, media, requestHeaders)
  {
    var success := false;
    var response: Attempt := Raises;
    var expectedStatusCode: Option<int> := None;
    var headers := requestHeaders;
    var tryNumber := 1;
    calls := [];
    ghost var budget := Budget(numOfTries);
    while !success && tryNumber <= numOfTries
      invariant 1 <= tryNumber <= budget + 1
      invariant |calls| == if Supported(requestType) then tryNumber - 1 else 0
      invariant forall i :: 0 <= i < |calls| ==>
        calls[i] == CallFor(requestType, url, requestBody, requestJson, bearer, timeout, media, requestHeaders)
      invariant headers.Some? ==> headers.value == GetHeaders(requestHeaders, bearer)
      invariant headers.None? ==> requestHeaders.None?
      invariant !success ==> !Supported(requestType) || forall j :: 0 <= j < tryNumber - 1 ==> network[j].Raises?
      invariant success ==> Supported(requestType) && tryNumber >= 2 && expectedStatusCode == Some(ExpectedStatus)
      invariant success ==> response == network[tryNumber - 2] && response.Returns?
      invariant success ==> forall j :: 0 <= j < tryNumber - 2 ==> network[j].Raises?
    {
      var attempt := network[tryNumber - 1];
      tryNumber := tryNumber + 1;
      var call: Call;
      if requestType == "GET" {
        expectedStatusCode := Some(200);
        if headers.None? {
          headers := Some(map["Content-Type" := "application/json", "Authorization" := bearer]);
        }
        call := Get(url, headers.value, requestBody, timeout);
      } else if requestType == "POST" {
        expectedStatusCode := Some(200);
        if media.Some? {
          call := PostForm(url, requestBody, media.value, timeout);
        } else {
          call := PostJson(url, JsonHeaders, requestBody, timeout);
        }
      } else if requestType == "PATCH" {
        expectedStatusCode := Some(200);
        call := Patch(url, JsonHeaders, requestJson, timeout);
      } else {
        // "Wrong request type!" is raised here and swallowed like any other failure
        continue;
      }
      assert call == CallFor(requestType, url, requestBody, requestJson, bearer, timeout, media, requestHeaders);
      calls := calls + [call];
      if attempt.Returns? {
        response := attempt;
        success := true;
      }
    }
    attempts := tryNumber - 1;
    if !success {
      if Supported(requestType) {
        AllRaise(requestType, numOfTries, network);
      } else {
        UnsupportedTypeFails(requestType, numOfTries, network);
      }
      return Err(RequestFailed(numOfTries)), calls, attempts;
    }
    StopsAtFirstReturn(requestType, numOfTries, network, tryNumber - 2);
    if response.status != expectedStatusCode.value {
      r := Err(UnexpectedStatus(response.content));
    } else {
      r := Ok(response.content);
    }
  }

  /** With at least one try allowed, at least one and at most `num_of_tries` attempts are made. */
  lemma AttemptBounds(requestType: string, numOfTries: int, network: seq<Attempt>)
    requires Budget(numOfTries) <= |network|
    ensures numOfTries >= 1 ==> 1 <= AttemptCount(requestType, numOfTries, network) <= numOfTries
    ensures numOfTries <= 0 ==> AttemptCount(requestType, numOfTries, network) == 0
    ensures numOfTries <= 0 ==> Outcome(requestType, numOfTries, network) == Err(RequestFailed(numOfTries))
  {
  }

  /**
   * The attempts stop at the first one that returns: when attempts `0..k-1` raise
   * and attempt `k` returns, exactly `k + 1` attempts are made and the result is
   * decided by attempt `k` alone, whatever later attempts would have done.
   */
  lemma StopsAtFirstReturn(requestType: string, numOfTries: int, network: seq<Attempt>, k: nat)
    requires Budget(numOfTries) <= |network|
    requires Supported(requestType) && k < numOfTries
    requires forall j :: 0 <= j < k ==> network[j].Raises?
    requires network[k].Returns?
    ensures AttemptCount(requestType, numOfTries, network) == k + 1
    ensures Outcome(requestType, numOfTries, network) ==
      if network[k].status == 200 then Ok(network[k].content) else Err(UnexpectedStatus(network[k].content))
  {
    var prefix := network[..Budget(numOfTries)];
    assert prefix[k] == network[k];
    assert FirstReturn(prefix) == k;
  }

  /** When every attempt raises, the helper raises "The request failed N times." after N attempts. */
  lemma AllRaise(requestType: string, numOfTries: int, network: seq<Attempt>)
    requires Budget(numOfTries) <= |network|
    requires forall j :: 0 <= j < Budget(numOfTries) ==> network[j].Raises?
    ensures AttemptCount(requestType, numOfTries, network) == Budget(numOfTries)
    ensures Outcome(requestType, numOfTries, network) == Err(RequestFailed(numOfTries))
    ensures ErrorMessage(Outcome(requestType, numOfTries, network).error) ==
      "The request failed " + IntToString(numOfTries) + " times."
  {
    var prefix := network[..Budget(numOfTries)];
    if FirstReturn(prefix) < |prefix| {
      assert prefix[FirstReturn(prefix)] == network[FirstReturn(prefix)];
    }
  }

  /**
   * An unsupported request type fails inside every attempt, so it ends with the
   * generic "failed N times" error after the whole budget, never a distinct error,
   * and without a request being issued.
   */
  lemma UnsupportedTypeFails(requestType: string, numOfTries: int, network: seq<Attempt>)
    requires Budget(numOfTries) <= |network| && !Supported(requestType)
    ensures Outcome(requestType, numOfTries, network) == Err(RequestFailed(numOfTries))
    ensures AttemptCount(requestType, numOfTries, network) == Budget(numOfTries)
  {
  }

  /** Three tries, the first two raising: the third body is returned after exactly three attempts. */
  lemma ThirdTimeLucky(body: string, first: Attempt, second: Attempt)
    requires first.Raises? && second.Raises?
    ensures Outcome("GET", 3, [first, second, Returns(200, body)]) == Ok(body)
    ensures AttemptCount("GET", 3, [first, second, Returns(200, body)]) == 3
  {
    StopsAtFirstReturn("GET", 3, [first, second, Returns(200, body)], 2);
  }
}
