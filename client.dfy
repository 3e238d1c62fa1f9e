/**
 * The HTTP client: error classification of a response, the argument defaults of
 * `make_request`, method validation in the request wrapper, and the parameters of
 * the credential check. The network is not modelled: the server's reply is an
 * argument, and the requests sent are recorded in a ghost log.
 */
module Client {
  import opened Wrappers
  import opened Json
  import Strings
  import Utils
  import Exceptions

  const BASE_URL: string := "https://api.delighted.com"
  const SUCCESS_CODES: set<int> := {200, 201, 204}

  /** A response body: JSON, or text that does not parse as JSON. */
  datatype Body = Parsed(json: Json) | Unparsable

  datatype HttpResponse = HttpResponse(statusCode: int, body: Body)

  /** What a request can raise. */
  datatype RequestError =
    | HttpError(exception: Exceptions.DelightedException<HttpResponse>)
    /** `.get` called on a JSON body that is not a dict */
    | AttributeError
    /** `ValueError("Unsupported method: ...")` */
    | UnsupportedMethod(message: string)
    /** `response.json()` on a successful response whose body is not JSON */
    | JsonDecodeError
    /** the start date of the credential check does not parse */
    | CodecFailure(error: Utils.CodecError)

  /** `response.json()` guarded by `except Exception`: a body that does not parse reads as `{}`. */
  function JsonOrEmpty(body: Body): Json {
    match body
    case Parsed(j) => j
    case Unparsable => Obj([])
  }

  /** The `Error:` part of the message: a truthy `"error"`, else `"message"`, else the table's message. */
  function ErrorDetail(status: int, fields: seq<(string, Json)>): string {
    var error := GetOr(fields, "error", Null);
    if Truthy(error) then PyStr(error)
    else PyStr(GetOr(fields, "message", Str(Exceptions.MessageForStatus(status))))
  }

  function ErrorPrefix(status: int): string {
    "HTTP-error-code: " + Strings.IntToString(status) + ", Error: "
  }

  /** `raise_for_error`: `None` when the response passes, else the exception raised. */
  function RaiseForError(response: HttpResponse): Option<RequestError> {
    if response.statusCode in SUCCESS_CODES then None
    else
      match JsonOrEmpty(response.body)
      case Obj(fields) =>
        var message := ErrorPrefix(response.statusCode) + ErrorDetail(response.statusCode, fields);
        Some(HttpError(Exceptions.NewException(Exceptions.ClassForStatus(response.statusCode), Some(message), Some(response))))
      case _ => Some(AttributeError)
  }

  /** The errors the request wrapper retries. */
  predicate Retryable(e: RequestError) {
    e.HttpError? && Exceptions.IsBackoff(e.exception.cls)
  }

  /** A response raises exactly when its status is not 200, 201 or 204, whatever the body. */
  lemma RaisesExactlyOnFailureStatus(response: HttpResponse)
    ensures RaiseForError(response).None? <==> response.statusCode in SUCCESS_CODES
  {
  }

  /**
   * A failure status with a dict body (or one that does not parse) raises the class the
   * table names for the status, or `DelightedError`, carrying the response; it is
   * retried exactly for 422, 429 and 500-503.
   */
  lemma {:induction false} FailureRaisesTheMappedClass(response: HttpResponse)
    requires response.statusCode !in SUCCESS_CODES
    requires JsonOrEmpty(response.body).Obj?
    ensures RaiseForError(response).Some? && RaiseForError(response).value.HttpError?
    ensures RaiseForError(response).value.exception.cls == Exceptions.ClassForStatus(response.statusCode)
    ensures RaiseForError(response).value.exception.response == Some(response)
    ensures Retryable(RaiseForError(response).value) <==> response.statusCode in Exceptions.BACKOFF_CODES
  {
    Exceptions.BackoffExactlyForRetryableCodes(response.statusCode);
  }

  /** A failure status whose JSON body is not a dict makes `raise_for_error` itself fail on `.get`. */
  lemma NonDictBodyFailsOnGet(status: int, body: Json)
    requires status !in SUCCESS_CODES && !body.Obj?
    ensures RaiseForError(HttpResponse(status, Parsed(body))) == Some(AttributeError)
    ensures !Retryable(AttributeError)
  {
  }

  /** The message: the fixed prefix, then the first of error, message, table message, "Unknown Error". */
  lemma {:induction false} MessageSelection(status: int, fields: seq<(string, Json)>)
    requires status !in SUCCESS_CODES
    ensures var r := RaiseForError(HttpResponse(status, Parsed(Obj(fields))));
      r.Some? && r.value.HttpError? && r.value.exception.message.Some? &&
      var m := r.value.exception.message.value;
      var error := Get(fields, "error");
      var message := Get(fields, "message");
      (error.Some? && Truthy(error.value) ==> m == ErrorPrefix(status) + PyStr(error.value)) &&
      ((error.None? || !Truthy(error.value)) && message.Some? ==> m == ErrorPrefix(status) + PyStr(message.value)) &&
      ((error.None? || !Truthy(error.value)) && message.None? && status in Exceptions.ERROR_CODE_EXCEPTION_MAPPING ==>
        m == ErrorPrefix(status) + Exceptions.ERROR_CODE_EXCEPTION_MAPPING[status].message) &&
      ((error.None? || !Truthy(error.value)) && message.None? && status !in Exceptions.ERROR_CODE_EXCEPTION_MAPPING ==>
        m == ErrorPrefix(status) + "Unknown Error")
  {
  }

  /** A body that does not parse is read as `{}`: the table's message (or "Unknown Error") is used. */
  lemma UnparsableBodyReadsAsEmpty(status: int)
    requires status !in SUCCESS_CODES
    ensures var r := RaiseForError(HttpResponse(status, Unparsable));
      r.Some? && r.value.HttpError? &&
      r.value.exception.cls == Exceptions.ClassForStatus(status) &&
      r.value.exception.message == Some(ErrorPrefix(status) + Exceptions.MessageForStatus(status))
  {
  }

  /** `c.upper()` for one character: ASCII letters, and the characters whose upper case is ASCII only. */
  function UpperChar(c: char): string {
    if 'a' <= c <= 'z' then [(c as int - 32) as char]
    else if c == '\U{0131}' then "I"      // dotless i
    else if c == '\U{017F}' then "S"      // long s
    else if c == '\U{00DF}' then "SS"     // sharp s
    else if c == '\U{FB00}' then "FF"
    else if c == '\U{FB01}' then "FI"
    else if c == '\U{FB02}' then "FL"
    else if c == '\U{FB03}' then "FFI"
    else if c == '\U{FB04}' then "FFL"
    else if c == '\U{FB05}' || c == '\U{FB06}' then "ST"
    else [c]
  }

  /** `s.upper()`. */
  function Upper(s: string): string {
    if |s| == 0 then "" else UpperChar(s[0]) + Upper(s[1..])
  }

  /** The methods the wrapper sends: those whose upper case is GET or POST. */
  predicate Accepted(verb: string) {
    Upper(verb) == "GET" || Upper(verb) == "POST"
  }

  /** Method names are case-insensitive, including the long s of `poſt`. */
  lemma MethodNamesIgnoreCase()
    ensures Accepted("get") && Accepted("Post") && Upper("po\U{017F}t") == "POST"
    ensures !Accepted("put") && !Accepted("PATCH")
  {
    assert Upper("t") == "T";
    assert Upper("et") == "ET";
    assert Upper("get") == "GET";
    assert Upper("st") == "ST";
    assert Upper("ost") == "OST";
    assert Upper("Post") == "POST";
    assert Upper("\U{017F}t") == "ST";
    assert Upper("o\U{017F}t") == "OST";
    assert Upper("ut") == "UT";
    assert Upper("put") == "PUT";
    assert Upper("H") == "H";
    assert Upper("CH") == "CH";
    assert Upper("TCH") == "TCH";
    assert Upper("ATCH") == "ATCH";
    assert Upper("PATCH") == "PATCH";
  }

  /** One request as handed to the HTTP session. */
  datatype Request = Request(
    verb: string,
    endpoint: string,
    headers: map<string, Json>,
    params: map<string, Json>,
    data: Option<Json>)

  /** What `__make_request` returns, given the server's reply to the request it sends. */
  function SendOutcome(verb: string, reply: HttpResponse): (r: Result<Json, RequestError>)
    ensures r.Ok? ==> Accepted(verb) && reply.statusCode in SUCCESS_CODES && reply.body == Parsed(r.value)
    ensures !Accepted(verb) ==> r == Err(UnsupportedMethod("Unsupported method: " + Upper(verb)))
    ensures Accepted(verb) && reply.statusCode in SUCCESS_CODES && reply.body.Parsed? ==> r == Ok(reply.body.json)
    ensures Accepted(verb) && reply.statusCode in SUCCESS_CODES && reply.body.Unparsable? ==> r == Err(JsonDecodeError)
    ensures Accepted(verb) && reply.statusCode !in SUCCESS_CODES ==>
      RaiseForError(reply).Some? && r == Err(RaiseForError(reply).value)
  {
    var m := Upper(verb);
    if m != "GET" && m != "POST" then Err(UnsupportedMethod("Unsupported method: " + m))
    else
      match RaiseForError(reply)
      case Some(e) => Err(e)
      case None =>
        match reply.body
        case Parsed(j) => Ok(j)
        case Unparsable => Err(JsonDecodeError)
  }

  /** `x or {}` for the dict arguments of `make_request`. */
  function DictOrEmpty(d: Option<map<string, Json>>): map<string, Json> {
    if d.Some? && |d.value| > 0 then d.value else map[]
  }

  /** `body or {}`. */
  function BodyOrEmpty(body: Option<Json>): Json {
    if body.Some? && Truthy(body.value) then body.value else Obj([])
  }

  /** `endpoint or f"{base_url}/{path}"`; a missing path prints as `None`. */
  function EndpointFor(endpoint: string, path: Option<string>): string {
    if |endpoint| > 0 then endpoint
    else BASE_URL + "/" + (match path case Some(p) => p case None => "None")
  }

  /** The request `make_request` hands to the session for an accepted method: GET drops the body. */
  function Prepared(verb: string, endpoint: string, params: Option<map<string, Json>>,
                    headers: Option<map<string, Json>>, body: Option<Json>, path: Option<string>): Request
  {
    var m := Upper(verb);
    Request(m, EndpointFor(endpoint, path), DictOrEmpty(headers), DictOrEmpty(params),
      if m == "GET" then None else Some(BodyOrEmpty(body)))
  }

  /** Missing or empty arguments default to empty, a missing endpoint to `base_url/path`, and GET sends no body. */
  lemma RequestDefaults(verb: string, endpoint: string, params: Option<map<string, Json>>,
                        headers: Option<map<string, Json>>, body: Option<Json>, path: Option<string>)
    ensures var q := Prepared(verb, endpoint, params, headers, body, path);
      (params.None? ==> q.params == map[]) && (params.Some? ==> q.params == params.value) &&
      (headers.None? ==> q.headers == map[]) && (headers.Some? ==> q.headers == headers.value) &&
      (endpoint == "" ==> q.endpoint == BASE_URL + "/" + (if path.Some? then path.value else "None")) &&
      (endpoint != "" ==> q.endpoint == endpoint) &&
      (Upper(verb) == "GET" ==> q.data.None?) &&
      (Upper(verb) == "POST" ==> q.data == Some(if body.Some? && Truthy(body.value) then body.value else Obj([])))
  {
  }

  /** The query of the credential check: `since` is sent only for a truthy start timestamp. */
  function CredentialParams(startDate: Option<string>): (r: Result<map<string, Json>, Utils.CodecError>)
    ensures r.Err? <==> Utils.TimestampFromDatetime(startDate).Err?
    ensures r.Ok? ==> "per_page" in r.value && r.value["per_page"] == Int(1)
    ensures r.Ok? ==> r.value.Keys <= {"per_page", "since"}
    ensures r.Ok? ==> ("since" in r.value <==>
      Utils.TimestampFromDatetime(startDate).value.Some? && Utils.TimestampFromDatetime(startDate).value.value != 0)
    ensures r.Ok? && "since" in r.value ==> r.value["since"] == Int(Utils.TimestampFromDatetime(startDate).value.value)
  {
    match Utils.TimestampFromDatetime(startDate)
    case Err(e) => Err(e)
    case Ok(ts) =>
      if ts.Some? && ts.value != 0 then Ok(map["per_page" := Int(1), "since" := Int(ts.value)])
      else Ok(map["per_page" := Int(1)])
  }

  /** A start date at the epoch itself is converted to 0, which is falsy: no `since` is sent. */
  lemma EpochStartDateSendsNoSince()
    ensures CredentialParams(Some("1970-01-01T00:00:00Z")) == Ok(map["per_page" := Int(1)])
  {
    var dt := Utils.DateTime(1970, 1, 1, 0, 0, 0);
    assert Utils.ToTimestamp(dt) == 0;
    assert Utils.Format(dt) == "1970-01-01T00:00:00Z";
    Utils.ToTimestampRoundTrip(dt);
    Utils.CodecRoundTrip(0);
  }

  class Client {
    /** `config["start_date"]`. */
    const startDate: string
    const baseUrl: string := BASE_URL
    /** The requests handed to the HTTP session so far. */
    ghost var sent: seq<Request>

    constructor(startDate: string)
      ensures this.startDate == startDate && baseUrl == BASE_URL && sent == []
    {
      this.startDate := startDate;
      sent := [];
    }

    /** `make_request`: fill in the defaults, then send. */
    method MakeRequest(verb: string, endpoint: string, params: Option<map<string, Json>>,
                       headers: Option<map<string, Json>>, body: Option<Json>, path: Option<string>,
                       reply: HttpResponse) returns (r: Result<Json, RequestError>)
      modifies this
      ensures r == SendOutcome(verb, reply)
      ensures sent == old(sent) + (if Accepted(verb) then [Prepared(verb, endpoint, params, headers, body, path)] else [])
    {
      var p := if params.Some? && |params.value| > 0 then params.value else map[];
      var h := if headers.Some? && |headers.value| > 0 then headers.value else map[];
      var b := if body.Some? && Truthy(body.value) then body.value else Obj([]);
      var e := endpoint;
      if e == "" {
        e := baseUrl + "/" + (match path case Some(x) => x case None => "None");
      }
      assert e == EndpointFor(endpoint, path);
      assert p == DictOrEmpty(params);
      assert h == DictOrEmpty(headers);
      assert b == BodyOrEmpty(body);
      r := Send(verb, e, h, p, b, reply);
    }

    /** `__make_request`: validate the method, drop the body of a GET, send, classify the reply. */
    method Send(verb: string, endpoint: string, headers: map<string, Json>, params: map<string, Json>,
                data: Json, reply: HttpResponse) returns (r: Result<Json, RequestError>)
      modifies this
      ensures r == SendOutcome(verb, reply)
      ensures Accepted(verb) ==> (sent == old(sent) +
        [Request(Upper(verb), endpoint, headers, params, if Upper(verb) == "GET" then None else Some(data))])
      ensures !Accepted(verb) ==> sent == old(sent) && r == Err(UnsupportedMethod("Unsupported method: " + Upper(verb)))
    {
      var m := Upper(verb);
      if m == "GET" || m == "POST" {
        var kwargsData: Option<Json> := Some(data);
        if m == "GET" {
          kwargsData := None;
        }
        sent := sent + [Request(m, endpoint, headers, params, kwargsData)];
        var raised := RaiseForError(reply);
        if raised.Some? {
          return Err(raised.value);
        }
        match reply.body {
          case Parsed(j) => r := Ok(j);
          case Unparsable => r := Err(JsonDecodeError);
        }
      } else {
        r := Err(UnsupportedMethod("Unsupported method: " + m));
      }
    }

    /** `check_api_credentials`: one GET of `v1/people.json`, with `since` from the start date. */
    method CheckApiCredentials(reply: HttpResponse) returns (r: Result<Json, RequestError>)
      modifies this
      ensures CredentialParams(Some(startDate)).Err? ==>
        r == Err(CodecFailure(CredentialParams(Some(startDate)).error)) && sent == old(sent)
      ensures CredentialParams(Some(startDate)).Ok? ==>
        r == SendOutcome("GET", reply) &&
        sent == old(sent) + [Request("GET", baseUrl + "/v1/people.json",
          map["Content-Type" := Str("application/json")], CredentialParams(Some(startDate)).value, None)]
    {
      var params := CredentialParams(Some(startDate));
      if params.Err? {
        return Err(CodecFailure(params.error));
      }
      var headers := map["Content-Type" := Str("application/json")];
      assert Upper("GET") == "GET";
      r := MakeRequest("GET", baseUrl + "/v1/people.json", Some(params.value), Some(headers), None, None, reply);
    }
  }
}
