/**
 * The serverless entry point of api/webhook.py: the Telegram secret-header
 * check, the status routing of a posted update, and the two request shapes
 * the platform delivers (an HTTP request object or a Lambda-style event).
 * JSON and base64 decoding, the application lifecycle and the processing
 * of the update itself are collaborators whose results are parameters.
 * Status codes are those of RFC 9110: 200 OK (section 15.3.1), 400 Bad
 * Request (section 15.5.1), 403 Forbidden (section 15.5.4) and 500
 * Internal Server Error (section 15.6.1).
 */
module Webhook {
  import opened Wrappers
  import opened PyText
  import opened Values

  const StatusOk := 200
  const StatusBadRequest := 400
  const StatusForbidden := 403
  const StatusInternalServerError := 500

  /** The header that carries the secret, compared after lower-casing the header's name. */
  const SecretHeader := "x-telegram-bot-api-secret-token"

  datatype Response = Response(status: int, body: string)

  /** A handler either returns a response or raises; the top-level handler turns the latter into a 500. */
  datatype Handled = Returned(response: Response) | Raised

  /** What processing a well-formed update ends with. */
  datatype UpdateOutcome =
    | Processed
    | TelegramFailure(error: string)
    | Failure(error: string, trace: string)

  /**
   * The collaborators: the configured secret, `json.loads` (`None` when it
   * raises a decode error), base64 decoding to UTF-8 text (`None` when it
   * fails), how processing the update ends, whether a bot token is
   * configured, and the text and formatted traceback of an exception
   * that escapes to the top-level handler.
   */
  datatype Runtime = Runtime(
    secret: string,
    parseJson: string -> Option<Value>,
    decodeBase64: string -> Option<string>,
    outcome: UpdateOutcome,
    tokenPresent: bool,
    fatalError: string,
    fatalTrace: string)

  predicate IsSecretHeader(name: string) {
    AsciiCase(name, false) == SecretHeader
  }

  /** The position of the first header, in iteration order, whose name is the secret header. */
  function FirstSecretHeader(headers: Dict): (r: Option<nat>)
    ensures r.Some? ==> r.value < |headers| && IsSecretHeader(headers[r.value].key)
    ensures r.Some? ==> forall j :: 0 <= j < r.value ==> !IsSecretHeader(headers[j].key)
    ensures r.None? ==> forall j :: 0 <= j < |headers| ==> !IsSecretHeader(headers[j].key)
  {
    if headers == [] then None
    else if IsSecretHeader(headers[0].key) then Some(0)
    else match FirstSecretHeader(headers[1..])
      case None => None
      case Some(i) => Some(i + 1)
  }

  /**
   * Whether the headers carry the configured secret: always when no secret
   * is configured, otherwise exactly when the first secret header holds it.
   */
  function SecretAccepted(secret: string, headers: Dict): (ok: bool)
    ensures secret == "" ==> ok
    ensures secret != "" && (forall j :: 0 <= j < |headers| ==> !IsSecretHeader(headers[j].key)) ==> !ok
    ensures ok && secret != "" ==> exists j :: 0 <= j < |headers| && IsSecretHeader(headers[j].key) && headers[j].val == VStr(secret)
  {
    if secret == "" then true
    else match FirstSecretHeader(headers)
      case None => false
      case Some(i) => headers[i].val == VStr(secret)
  }

  /** `_validate_secret`: a first-match search over the headers that returns at the first secret header. */
  method ValidateSecret(secret: string, headers: Dict) returns (ok: bool)
    ensures ok == SecretAccepted(secret, headers)
  {
    if secret == "" {
      return true;
    }
    var i := 0;
    while i < |headers|
      invariant 0 <= i <= |headers|
      invariant forall j :: 0 <= j < i ==> !IsSecretHeader(headers[j].key)
    {
      if AsciiCase(headers[i].key, false) == SecretHeader {
        assert FirstSecretHeader(headers) == Some(i);
        return headers[i].val == VStr(secret);
      }
      i := i + 1;
    }
    return false;
  }

  /**
   * The first secret header decides and later ones are ignored: whatever
   * follows it, the verdict is whether it holds the secret.
   */
  lemma {:induction false} FirstSecretHeaderDecides(secret: string, before: Dict, header: Pair, after: Dict)
    requires secret != ""
    requires forall j :: 0 <= j < |before| ==> !IsSecretHeader(before[j].key)
    requires IsSecretHeader(header.key)
    ensures SecretAccepted(secret, before + [header] + after) <==> header.val == VStr(secret)
  {
    FirstSecretHeaderAfter(before, header, after);
  }

  lemma {:induction false} FirstSecretHeaderAfter(before: Dict, header: Pair, after: Dict)
    requires forall j :: 0 <= j < |before| ==> !IsSecretHeader(before[j].key)
    requires IsSecretHeader(header.key)
    ensures FirstSecretHeader(before + [header] + after) == Some(|before|)
  {
    var all := before + [header] + after;
    if before != [] {
      assert all[1..] == before[1..] + [header] + after;
      FirstSecretHeaderAfter(before[1..], header, after);
    }
  }

  /** Two header lists with the same values and names equal up to ASCII case get the same verdict. */
  lemma {:induction false} HeaderCaseIsIrrelevant(secret: string, headers: Dict, recased: Dict)
    requires |headers| == |recased|
    requires forall j :: 0 <= j < |headers| ==> AsciiCase(headers[j].key, false) == AsciiCase(recased[j].key, false) && headers[j].val == recased[j].val
    ensures SecretAccepted(secret, headers) == SecretAccepted(secret, recased)
  {
    SameFirstSecretHeader(headers, recased);
  }

  lemma {:induction false} SameFirstSecretHeader(headers: Dict, recased: Dict)
    requires |headers| == |recased|
    requires forall j :: 0 <= j < |headers| ==> AsciiCase(headers[j].key, false) == AsciiCase(recased[j].key, false)
    ensures FirstSecretHeader(headers) == FirstSecretHeader(recased)
  {
    if headers != [] {
      SameFirstSecretHeader(headers[1..], recased[1..]);
    }
  }

  /** Python's `str(bool)`. */
  function BoolText(b: bool): string {
    if b then "True" else "False"
  }

  /** The secret is accepted and the body parses as JSON, so the update is handed to the application. */
  predicate Parsed(body: Value, headers: Value, rt: Runtime) {
    headers.VDict? && SecretAccepted(rt.secret, headers.entries) && body.VStr? && rt.parseJson(body.s).Some?
  }

  /**
   * `_process_payload`: the secret is checked first, then the body is
   * parsed, then the update is processed. Headers that are not a dict
   * raise once a secret is configured; a body that is not text makes
   * `json.loads` raise an error other than a decode error.
   */
  function ProcessPayload(body: Value, headers: Value, rt: Runtime): (h: Handled)
    ensures h.Returned? && h.response.status == StatusOk ==> rt.outcome == Processed
    ensures rt.secret != "" && !headers.VDict? ==> h == Raised
    ensures headers.VDict? ==>
      (h == Returned(Response(StatusForbidden, "invalid secret")) <==> !SecretAccepted(rt.secret, headers.entries))
    ensures headers.VDict? && SecretAccepted(rt.secret, headers.entries) && !body.VStr? ==> h == Raised
    ensures headers.VDict? && SecretAccepted(rt.secret, headers.entries) && body.VStr? ==>
      (h == Returned(Response(StatusBadRequest, "invalid json")) <==> rt.parseJson(body.s).None?)
    ensures Parsed(body, headers, rt) && rt.outcome.Processed? ==> h == Returned(Response(StatusOk, "ok"))
    ensures Parsed(body, headers, rt) && rt.outcome.TelegramFailure? ==>
      h == Returned(Response(StatusInternalServerError, "telegram error: " + rt.outcome.error))
    ensures Parsed(body, headers, rt) && rt.outcome.Failure? ==>
      h == Returned(Response(StatusInternalServerError,
        "error: " + rt.outcome.error + "\n" + rt.outcome.trace + "\nToken present: " + BoolText(rt.tokenPresent)))
  {
    if rt.secret != "" && !headers.VDict? then Raised
    else if !SecretAccepted(rt.secret, if headers.VDict? then headers.entries else []) then
      Returned(Response(StatusForbidden, "invalid secret"))
    else if !body.VStr? then Raised
    else if rt.parseJson(body.s).None? then Returned(Response(StatusBadRequest, "invalid json"))
    else match rt.outcome
      case Processed => Returned(Response(StatusOk, "ok"))
      case TelegramFailure(error) => Returned(Response(StatusInternalServerError, "telegram error: " + error))
      case Failure(error, trace) =>
        Returned(Response(StatusInternalServerError,
          "error: " + error + "\n" + trace + "\nToken present: " + BoolText(rt.tokenPresent)))
  }

  /** A wrong secret is refused before the body is looked at, whatever the body is. */
  lemma ForbiddenBeforeParsing(body: Value, otherBody: Value, headers: Dict, rt: Runtime)
    requires !SecretAccepted(rt.secret, headers)
    ensures ProcessPayload(body, VDict(headers), rt) == ProcessPayload(otherBody, VDict(headers), rt)
    ensures ProcessPayload(body, VDict(headers), rt).Returned?
  {
  }

  /** Python's `a or b`. */
  function Or(a: Value, b: Value): (r: Value)
    ensures r == a || r == b
    ensures Truthy(r) <==> Truthy(a) || Truthy(b)
  {
    if Truthy(a) then a else b
  }

  /** `d.get(key)` with `None` for a missing key. */
  function Get(d: Dict, key: string): Value {
    DictGet(d, key).GetOr(VNone)
  }

  /**
   * The request method: `httpMethod`, else `method`, else POST, upper-cased;
   * `None` when the chosen value is not text and `.upper()` raises.
   */
  function EventMethod(event: Dict): (r: Option<string>)
    ensures Truthy(Get(event, "httpMethod")) ==>
      r == (if Get(event, "httpMethod").VStr? then Some(AsciiCase(Get(event, "httpMethod").s, true)) else None)
    ensures !Truthy(Get(event, "httpMethod")) && Truthy(Get(event, "method")) ==>
      r == (if Get(event, "method").VStr? then Some(AsciiCase(Get(event, "method").s, true)) else None)
    ensures !Truthy(Get(event, "httpMethod")) && !Truthy(Get(event, "method")) ==> r == Some("POST")
    ensures r.Some? ==> |r.value| > 0
  {
    var chosen := Or(Or(Get(event, "httpMethod"), Get(event, "method")), VStr("POST"));
    assert AsciiCase("POST", true) == "POST";
    if chosen.VStr? then Some(AsciiCase(chosen.s, true)) else None
  }

  /** An event whose method is text other than GET and whose body is truthy. */
  predicate PostWithBody(fields: Dict) {
    EventMethod(fields).Some? && EventMethod(fields) != Some("GET") && Truthy(Get(fields, "body"))
  }

  /** `base64.b64decode(body).decode("utf-8")`, `None` when it raises (a body that is not text included). */
  function DecodedBody(fields: Dict, rt: Runtime): Option<string> {
    var raw := Get(fields, "body");
    if raw.VStr? then rt.decodeBase64(raw.s) else None
  }

  /**
   * `_handle_lambda_event`: a GET is answered "ok"; a missing or empty body
   * is refused; a base64 body is decoded; the rest is `_process_payload`.
   * An event that is not a dict raises at its first lookup.
   */
  function HandleLambdaEvent(event: Value, rt: Runtime): (h: Handled)
    ensures event.VDict? && EventMethod(event.entries) == Some("GET") ==> h == Returned(Response(StatusOk, "ok"))
    ensures !event.VDict? || EventMethod(event.entries).None? ==> h == Raised
    ensures (event.VDict? && EventMethod(event.entries).Some? && EventMethod(event.entries) != Some("GET") &&
             !Truthy(Get(event.entries, "body"))) ==> h == Returned(Response(StatusBadRequest, "missing body"))
    ensures (event.VDict? && PostWithBody(event.entries) && Truthy(Get(event.entries, "isBase64Encoded")) &&
             DecodedBody(event.entries, rt).None?) ==> h == Returned(Response(StatusBadRequest, "invalid base64 body"))
    ensures event.VDict? && PostWithBody(event.entries) && !Truthy(Get(event.entries, "isBase64Encoded")) ==>
      h == ProcessPayload(Get(event.entries, "body"), Or(Get(event.entries, "headers"), VDict([])), rt)
    ensures (event.VDict? && PostWithBody(event.entries) && Truthy(Get(event.entries, "isBase64Encoded")) &&
             DecodedBody(event.entries, rt).Some?) ==>
      h == ProcessPayload(VStr(DecodedBody(event.entries, rt).value), Or(Get(event.entries, "headers"), VDict([])), rt)
  {
    if !event.VDict? then Raised
    else
      var fields := event.entries;
      match EventMethod(fields)
      case None => Raised
      case Some(verb) =>
        if verb == "GET" then Returned(Response(StatusOk, "ok"))
        else
          var raw := Get(fields, "body");
          if !Truthy(raw) then Returned(Response(StatusBadRequest, "missing body"))
          else
            var body := if !Truthy(Get(fields, "isBase64Encoded")) then Some(raw)
              else if DecodedBody(fields, rt).Some? then Some(VStr(DecodedBody(fields, rt).value))
              else None;
            if body.None? then Returned(Response(StatusBadRequest, "invalid base64 body"))
            else ProcessPayload(body.value, Or(Get(fields, "headers"), VDict([])), rt)
  }

  /** A lambda event that is not a GET and has no body never reaches the secret check, the parser or the application. */
  lemma MissingBodyIgnoresRuntime(event: Dict, rt: Runtime, other: Runtime)
    requires EventMethod(event) == Some("POST") && Get(event, "body") in {VNone, VStr("")}
    ensures HandleLambdaEvent(VDict(event), rt) == HandleLambdaEvent(VDict(event), other)
    ensures HandleLambdaEvent(VDict(event), rt) == Returned(Response(StatusBadRequest, "missing body"))
  {
  }

  /** The event as the platform hands it over. */
  datatype RawEvent =
    | RawDict(entries: Dict)
    | RawString(text: string)
    | RawNone
    | RawOther(asDict: Option<Dict>)  // `dict(raw)`, `None` when that raises

  /** `_normalize_event`: a dict unchanged, a string parsed as JSON, anything else converted or `{}`. */
  function NormalizeEvent(raw: RawEvent, parseJson: string -> Option<Value>): (event: Value)
    ensures raw.RawDict? ==> event == VDict(raw.entries)
    ensures raw.RawNone? ==> event == VDict([])
    ensures raw.RawString? && parseJson(raw.text).None? ==> event == VDict([])
    ensures raw.RawString? && parseJson(raw.text).Some? ==> event == parseJson(raw.text).value
  {
    match raw
    case RawDict(entries) => VDict(entries)
    case RawString(text) => parseJson(text).GetOr(VDict([]))
    case RawNone => VDict([])
    case RawOther(asDict) => VDict(asDict.GetOr([]))
  }

  /** A request object as a web framework delivers it. */
  datatype HttpRequest = HttpRequest(verb: Option<string>, data: Option<string>, headers: seq<(string, string)>)

  function HeaderDict(headers: seq<(string, string)>): (d: Dict)
    ensures |d| == |headers|
    ensures forall j :: 0 <= j < |d| ==> d[j] == Pair(headers[j].0, VStr(headers[j].1))
  {
    seq(|headers|, j requires 0 <= j < |headers| => Pair(headers[j].0, VStr(headers[j].1)))
  }

  /** `_handle_http_request`: the same checks as the lambda path on a request object. */
  function HandleHttpRequest(request: HttpRequest, rt: Runtime): (h: Handled)
    ensures request.verb.Some? && AsciiCase(request.verb.value, true) == "GET" ==> h == Returned(Response(StatusOk, "ok"))
    ensures (request.verb.None? || AsciiCase(request.verb.value, true) != "GET") && request.data.GetOr("") == "" ==>
      h == Returned(Response(StatusBadRequest, "missing body"))
    ensures (request.verb.None? || AsciiCase(request.verb.value, true) != "GET") && request.data.GetOr("") != "" ==>
      h == ProcessPayload(VStr(request.data.value), VDict(HeaderDict(request.headers)), rt)
  {
    var verb := if request.verb.Some? && request.verb.value != "" then request.verb.value else "POST";
    if AsciiCase(verb, true) == "GET" then Returned(Response(StatusOk, "ok"))
    else
      var body := request.data.GetOr("");
      if body == "" then Returned(Response(StatusBadRequest, "missing body"))
      else ProcessPayload(VStr(body), VDict(HeaderDict(request.headers)), rt)
  }

  datatype Event = Request(request: HttpRequest) | Delivered(raw: RawEvent)

  /** The body of the 500 that `handler` answers when an exception escapes. */
  function FatalBody(rt: Runtime): string {
    "error: " + rt.fatalError + "\n" + rt.fatalTrace
  }

  /**
   * `handler`: a request object goes to the HTTP path, anything else is
   * normalised and goes to the Lambda path; a response a path returns is
   * passed on unchanged, and whatever a path raises becomes a 500 with the
   * error's text and traceback.
   */
  function Handler(event: Event, rt: Runtime): (r: Response)
    ensures r.status in {StatusOk, StatusBadRequest, StatusForbidden, StatusInternalServerError}
    ensures event.Request? && HandleHttpRequest(event.request, rt).Returned? ==>
      r == HandleHttpRequest(event.request, rt).response
    ensures event.Request? && HandleHttpRequest(event.request, rt).Raised? ==>
      r == Response(StatusInternalServerError, FatalBody(rt))
    ensures event.Delivered? && HandleLambdaEvent(NormalizeEvent(event.raw, rt.parseJson), rt).Returned? ==>
      r == HandleLambdaEvent(NormalizeEvent(event.raw, rt.parseJson), rt).response
    ensures event.Delivered? && HandleLambdaEvent(NormalizeEvent(event.raw, rt.parseJson), rt).Raised? ==>
      r == Response(StatusInternalServerError, FatalBody(rt))
  {
    var h := match event
      case Request(request) => HandleHttpRequest(request, rt)
      case Delivered(raw) => HandleLambdaEvent(NormalizeEvent(raw, rt.parseJson), rt);
    if h.Returned? then h.response else Response(StatusInternalServerError, FatalBody(rt))
  }

  /** A request without a method is handled as a POST. */
  lemma MissingVerbIsPost(request: HttpRequest, rt: Runtime)
    requires request.verb.None?
    ensures HandleHttpRequest(request, rt) == HandleHttpRequest(request.(verb := Some("POST")), rt)
  {
    assert AsciiCase("POST", true) == "POST";
  }

  /** A GET is answered "ok" however its method is spelled, before the body or the secret is looked at. */
  lemma GetInAnyCaseIsOk(request: HttpRequest, rt: Runtime)
    requires request.verb.Some? && |request.verb.value| == 3
    requires request.verb.value[0] in "gG" && request.verb.value[1] in "eE" && request.verb.value[2] in "tT"
    ensures HandleHttpRequest(request, rt) == Returned(Response(StatusOk, "ok"))
  {
    var u := AsciiCase(request.verb.value, true);
    assert u[0] == 'G' && u[1] == 'E' && u[2] == 'T';
    assert u == "GET";
  }

  /**
   * An update is handed to the application only when the secret, the body
   * and its JSON all pass: an answer of 200 to a non-GET request means the
   * secret was accepted and the update processed.
   */
  lemma OkMeansAcceptedAndProcessed(event: Dict, rt: Runtime)
    requires EventMethod(event).Some? && EventMethod(event) != Some("GET")
    requires Get(event, "headers").VDict?
    requires HandleLambdaEvent(VDict(event), rt) == Returned(Response(StatusOk, "ok"))
    ensures SecretAccepted(rt.secret, Get(event, "headers").entries)
    ensures rt.outcome == Processed && Truthy(Get(event, "body"))
  {
    var headers := Or(Get(event, "headers"), VDict([]));
    if Truthy(Get(event, "headers")) {
      assert headers == Get(event, "headers");
    } else {
      assert Get(event, "headers").entries == [];
    }
  }
}
