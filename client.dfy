/**
  The pure parts of the TrikHub HTTP client: how requests are addressed and
  authorised, how a reply is classified into data or one of the client error
  kinds, and the small encoders used by individual endpoints. The transport
  itself is not modelled: a reply is an input value.
*/
module Client {
  import opened Wrappers
  import opened Json
  import Strings

  const API_HEALTH := "/api/v1/health"
  const API_TOOLS := "/api/v1/tools"
  const API_EXECUTE := "/api/v1/execute"
  const API_CONTENT := "/api/v1/content"
  const API_TRIKS := "/api/v1/triks"
  const API_TRIKS_INSTALL := "/api/v1/triks/install"
  const API_TRIKS_RELOAD := "/api/v1/triks/reload"

  // ---------------------------------------------------------------------------
  // Error hierarchy
  // ---------------------------------------------------------------------------

  /** The three exception classes: the base class and its two subclasses. */
  datatype ErrorClass = ClientErrorClass | ConnectionErrorClass | AuthErrorClass

  /** The direct superclass of an error class; the base class has none. */
  function Superclass(c: ErrorClass): Option<ErrorClass> {
    match c
    case ClientErrorClass => None
    case ConnectionErrorClass => Some(ClientErrorClass)
    case AuthErrorClass => Some(ClientErrorClass)
  }

  /** `issubclass(sub, sup)`: reflexive and following Superclass. */
  predicate IsSubclass(sub: ErrorClass, sup: ErrorClass) {
    sub == sup || (Superclass(sub).Some? && Superclass(sub).value == sup)
  }

  /** A raised client error, carrying the argument it was constructed with. */
  datatype ClientError =
    | ClientError(message: Json)
    | ConnectionError(message: Json)
    | AuthError(message: Json)
  {
    function Class(): ErrorClass {
      match this
      case ClientError(_) => ClientErrorClass
      case ConnectionError(_) => ConnectionErrorClass
      case AuthError(_) => AuthErrorClass
    }

    /** `str(err)` of an exception built from a single argument. */
    function Text(render: Json -> string): string {
      PyStr(message, render)
    }
  }

  /** An `except TrikHubClientError` handler catches every error this client raises. */
  lemma EveryErrorIsClientError(e: ClientError)
    ensures IsSubclass(e.Class(), ClientErrorClass)
    ensures e.Class() == ClientErrorClass || Superclass(e.Class()) == Some(ClientErrorClass)
  {
  }

  // ---------------------------------------------------------------------------
  // Requests and replies
  // ---------------------------------------------------------------------------

  /** What the HTTP layer hands back: a decoded status and JSON body, or a failure below HTTP. */
  datatype HttpReply =
    | Response(status: int, body: Body)
    | ConnectorFailure(detail: string)   // aiohttp.ClientConnectorError
    | TransportFailure(detail: string)   // any other aiohttp.ClientError

  datatype HttpRequest = HttpRequest(verb: string, url: string, headers: map<string, string>, json: Option<Body>)

  /** The status classification of `_request`. The body of a 401 or 403 reply is never looked at. */
  function Classify(reply: HttpReply): (r: Result<Body, ClientError>)
    ensures r.Success? <==> reply.Response? && reply.status < 400
    ensures r.Success? ==> r.value == reply.body
    ensures r.Failure? && r.error.AuthError? <==> reply.Response? && (reply.status == 401 || reply.status == 403)
    ensures r.Failure? && r.error.ConnectionError? <==> reply.ConnectorFailure?
    ensures reply.Response? && reply.status == 401 ==> r.error.message == JStr("Authentication failed")
    ensures reply.Response? && reply.status == 403 ==> r.error.message == JStr("Access forbidden")
    ensures reply.Response? && reply.status >= 400 && reply.status != 401 && reply.status != 403 ==>
      r.error == ClientError(if "error" in reply.body then reply.body["error"] else JStr("HTTP " + Strings.NatToDecimal(reply.status)))
  {
    match reply
    case Response(status, body) =>
      if status == 401 then Failure(AuthError(JStr("Authentication failed")))
      else if status == 403 then Failure(AuthError(JStr("Access forbidden")))
      else if status >= 400 then
        Failure(ClientError(GetOr(body, "error", JStr("HTTP " + Strings.NatToDecimal(status)))))
      else Success(body)
    case ConnectorFailure(detail) =>
      Failure(ConnectionError(JStr("Failed to connect to TrikHub server: " + detail)))
    case TransportFailure(detail) =>
      Failure(ClientError(JStr("Request failed: " + detail)))
  }

  /** The execute request body: `tool` and `input`, plus `sessionId` exactly when the session id is truthy. */
  function ExecutePayload(tool: string, input: Body, sessionId: Json): (p: Body)
    ensures p.Keys == {"tool", "input"} + (if Truthy(sessionId) then {"sessionId"} else {})
    ensures p["tool"] == JStr(tool) && p["input"] == JObj(input)
    ensures "sessionId" in p ==> p["sessionId"] == sessionId
  {
    var base := map["tool" := JStr(tool), "input" := JObj(input)];
    if Truthy(sessionId) then base["sessionId" := sessionId] else base
  }

  /** `get_content`: None on any client error, the body otherwise. */
  function GetContent(reply: HttpReply): (r: Option<Body>)
    ensures r.None? <==> Classify(reply).Failure?
    ensures r.Some? ==> reply.Response? && r.value == reply.body
  {
    Classify(reply).ToOption()
  }

  /** `data.get(key, [])` on a successful reply, as get_tools, get_triks and list_installed_triks do. */
  function ListField(reply: HttpReply, key: string): (r: Result<Json, ClientError>)
    ensures r.Success? <==> Classify(reply).Success?
    ensures r.Success? ==> r.value == (if key in reply.body then reply.body[key] else JArr([]))
    ensures r.Failure? ==> r.error == Classify(reply).error
  {
    var data :- Classify(reply);
    Success(GetOr(data, key, JArr([])))
  }

  // ---------------------------------------------------------------------------
  // Trik name encoding for uninstall
  // ---------------------------------------------------------------------------

  /** `name.replace("@", "%40").replace("/", "%2F")`. */
  function EncodeTrikName(name: string): (r: string)
    ensures '@' !in r && '/' !in r
  {
    Strings.ReplaceCharKeepsOut(Strings.ReplaceChar(name, '@', "%40"), '/', "%2F", '@');
    Strings.ReplaceChar(Strings.ReplaceChar(name, '@', "%40"), '/', "%2F")
  }

  /** The encoding one character at a time: `@` and `/` are percent-encoded, every other character is kept. */
  function EncodeChar(c: char): string {
    if c == '@' then "%40" else if c == '/' then "%2F" else [c]
  }

  function EncodeEach(name: string): string {
    if name == [] then [] else EncodeChar(name[0]) + EncodeEach(name[1..])
  }

  /** The two chained replacements act as a per-character substitution (the first one introduces no `/`). */
  lemma {:induction false} EncodeTrikNameIsPerChar(name: string)
    ensures EncodeTrikName(name) == EncodeEach(name)
  {
    if name != [] {
      EncodeTrikNameIsPerChar(name[1..]);
      var head := if name[0] == '@' then "%40" else [name[0]];
      assert Strings.ReplaceChar(name, '@', "%40") == head + Strings.ReplaceChar(name[1..], '@', "%40");
      Strings.ReplaceCharAppend(head, Strings.ReplaceChar(name[1..], '@', "%40"), '/', "%2F");
      if name[0] == '@' {
        assert Strings.ReplaceChar(head, '/', "%2F") == "%40" by {
          assert head == ['%', '4', '0'];
        }
      } else {
        assert Strings.ReplaceChar(head, '/', "%2F") == EncodeChar(name[0]);
      }
    }
  }

  /** Percent-decoding of the two escapes the encoder emits (RFC 3986, section 2.1). */
  function DecodeTrikName(s: string): string {
    if |s| >= 3 && s[..3] == "%40" then "@" + DecodeTrikName(s[3..])
    else if |s| >= 3 && s[..3] == "%2F" then "/" + DecodeTrikName(s[3..])
    else if s == [] then []
    else [s[0]] + DecodeTrikName(s[1..])
  }

  /** For a name with no literal `%`, decoding the encoded path segment gives the name back. */
  lemma {:induction false} DecodeEncodeTrikName(name: string)
    requires '%' !in name
    ensures DecodeTrikName(EncodeTrikName(name)) == name
  {
    EncodeTrikNameIsPerChar(name);
    DecodeEncodeEach(name);
  }

  lemma {:induction false} DecodeEncodeEach(name: string)
    requires '%' !in name
    ensures DecodeTrikName(EncodeEach(name)) == name
  {
    if name != [] {
      DecodeEncodeEach(name[1..]);
      var e := EncodeEach(name);
      assert e == EncodeChar(name[0]) + EncodeEach(name[1..]);
      if name[0] == '@' || name[0] == '/' {
        assert e[..3] == EncodeChar(name[0]);
        assert e[3..] == EncodeEach(name[1..]);
      } else {
        assert e[0] == name[0] && e[1..] == EncodeEach(name[1..]);
      }
      assert [name[0]] + name[1..] == name;
    }
  }

  /**
    `uninstall_trik`'s endpoint: the name becomes a single path segment under
    the triks endpoint, which decodes back to the name when it holds no `%`.
  */
  function UninstallEndpoint(name: string): (endpoint: string)
    ensures |endpoint| > |API_TRIKS| && endpoint[..|API_TRIKS| + 1] == API_TRIKS + "/"
    ensures '/' !in endpoint[|API_TRIKS| + 1..]
    ensures '%' !in name ==> DecodeTrikName(endpoint[|API_TRIKS| + 1..]) == name
  {
    var endpoint := API_TRIKS + "/" + EncodeTrikName(name);
    assert endpoint[|API_TRIKS| + 1..] == EncodeTrikName(name);
    if '%' in name then endpoint
    else
      DecodeEncodeTrikName(name);
      endpoint
  }

  // ---------------------------------------------------------------------------
  // Tool format conversion
  // ---------------------------------------------------------------------------

  /**
    `convert_tool_to_llm_format`. Python raises (KeyError, AttributeError) when
    the definition has no `name` or a name that is not a string: None here.
  */
  function ToLlmFormat(tool: Body): (r: Option<Json>)
    ensures r.Some? <==> "name" in tool && tool["name"].JStr?
    ensures r.Some? ==>
      && r.value.JObj? && r.value.fields.Keys == {"type", "function"}
      && r.value.fields["function"].JObj?
      && r.value.fields["function"].fields.Keys == {"name", "description", "parameters"}
      && var f := r.value.fields["function"].fields;
      && r.value.fields["type"] == JStr("function")
      && f["name"] == JStr("trik_" + Strings.ReplaceChar(tool["name"].s, ':', "_"))
      && ':' !in f["name"].s
      && f["description"] == GetOr(tool, "description", JStr(""))
      && f["parameters"] == GetOr(tool, "inputSchema", Obj2("type", JStr("object"), "properties", JObj(map[])))
  {
    if "name" in tool && tool["name"].JStr? then
      var name := "trik_" + Strings.ReplaceChar(tool["name"].s, ':', "_");
      Some(Obj2("type", JStr("function"),
                "function", JObj(map[
                  "name" := JStr(name),
                  "description" := GetOr(tool, "description", JStr("")),
                  "parameters" := GetOr(tool, "inputSchema", Obj2("type", JStr("object"), "properties", JObj(map[])))])))
    else None
  }

  // ---------------------------------------------------------------------------
  // The client object
  // ---------------------------------------------------------------------------

  class TrikHubClient {
    var baseUrl: string
    var authToken: Option<string>

    /** Trailing slashes are stripped from the base URL. */
    constructor (baseUrl: string, authToken: Option<string>)
      ensures this.baseUrl == Strings.RStrip(baseUrl, '/')
      ensures this.authToken == authToken
      ensures this.baseUrl == [] || this.baseUrl[|this.baseUrl| - 1] != '/'
    {
      this.baseUrl := Strings.RStrip(baseUrl, '/');
      this.authToken := authToken;
    }

    /** `_get_headers`: always the JSON content type; a Bearer credential (RFC 6750, section 2.1) iff the token is truthy. */
    function Headers(): (h: map<string, string>)
      reads this
      ensures "Content-Type" in h && h["Content-Type"] == "application/json"
      ensures "Authorization" in h <==> authToken.Some? && authToken.value != ""
      ensures "Authorization" in h ==> h["Authorization"] == "Bearer " + authToken.value
      ensures h.Keys <= {"Content-Type", "Authorization"}
    {
      var base := map["Content-Type" := "application/json"];
      if authToken.Some? && authToken.value != "" then base["Authorization" := "Bearer " + authToken.value] else base
    }

    /** The request `_request` sends: the endpoint appended to the base URL, with this client's headers. */
    function RequestFor(verb: string, endpoint: string, json: Option<Body>): (req: HttpRequest)
      reads this
    {
      HttpRequest(verb, baseUrl + endpoint, Headers(), json)
    }

    /** `execute`: the payload is built by conditional insertion, then sent; the reply is classified. */
    method Execute(tool: string, input: Body, sessionId: Json, reply: HttpReply)
      returns (sent: HttpRequest, r: Result<Body, ClientError>)
      ensures sent == RequestFor("POST", API_EXECUTE, Some(ExecutePayload(tool, input, sessionId)))
      ensures r == Classify(reply)
    {
      var payload: Body := map["tool" := JStr(tool), "input" := JObj(input)];
      if Truthy(sessionId) {
        payload := payload["sessionId" := sessionId];
      }
      sent := HttpRequest("POST", baseUrl + API_EXECUTE, Headers(), Some(payload));
      r := Classify(reply);
    }
  }
}
