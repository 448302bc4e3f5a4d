/** The client of the traffic-management service's REST API (cedexis.js):
    the records it exchanges, the requests it builds, the rules by which it
    accepts or rejects a reply, and the client object that keeps the access
    token between calls. Each reply of the transport is an input value. */
module Cedexis {
  import opened Wrappers
  import Arrays

  const DEFAULT_HOST: string := "https://portal.cedexis.com/"
  const FORM_CONTENT_TYPE: string := "application/x-www-form-urlencoded"
  const JSON_CONTENT_TYPE: string := "application/json"

  const TOKEN_ERROR: string := "Error getting access token"
  const PLATFORMS_ERROR: string := "Error getting platforms"
  const UPDATE_ERROR: string := "Error updating platform"

  /** JSON members that the program carries along without looking at them. */
  type Fields = seq<(string, string)>

  /** A platform's `sonarConfig` object; `maintenanceMode` may be missing. */
  datatype SonarConfig = SonarConfig(maintenanceMode: Option<bool>, rest: Fields)

  /** A platform resource as listed and updated by the service. */
  datatype Platform = Platform(
    id: string,
    name: string,
    displayName: string,
    sonarConfig: Option<SonarConfig>,
    rest: Fields)

  /** A decoded reply body: a JSON object, of which the client reads
      `access_token` and `developerMessage`, or a JSON array of platforms. */
  datatype Body =
    | Object(accessToken: Option<string>, developerMessage: Option<string>, rest: Fields)
    | Array(items: seq<Platform>)

  /** What the transport hands to a reply callback: the status code and the
      body, `None` when the body is missing or falsy. */
  datatype Reply = Reply(status: int, data: Option<Body>)

  /** The requests the client issues, with the headers it sets. */
  datatype Request =
    | Post(url: string, contentType: string, form: string)
    | Get(url: string, authorization: string)
    | Put(url: string, authorization: string, contentType: string, platform: Platform)

  /** The errors a run can end with: `Exception` is the error object of
      app.js, `RadarException` that of cedexis.js; the other two stand for
      the JavaScript errors the engine throws. */
  datatype Error =
    | Exception(message: string)
    | RadarException(message: string)
    | TypeError(message: string)
    | ReferenceError(message: string)

  /** The options object handed to the client's constructor. */
  datatype ClientOptions = ClientOptions(host: Option<string>, verbose: Option<bool>)

  /** A string field that JavaScript treats as true: present and not "". */
  predicate Truthy(s: Option<string>)
  {
    s.Some? && s.value != ""
  }

  /** `data && data.developerMessage` */
  predicate HasDeveloperMessage(data: Option<Body>)
  {
    data.Some? && data.value.Object? && Truthy(data.value.developerMessage)
  }

  /** `setErrorMessage`: the service's own diagnostic wins over the default. */
  function ErrorMessage(message: string, data: Option<Body>): (r: string)
    ensures HasDeveloperMessage(data) ==> r == data.value.developerMessage.value
    ensures !HasDeveloperMessage(data) ==> r == message
    ensures message != "" ==> r != ""
  {
    if HasDeveloperMessage(data) then data.value.developerMessage.value else message
  }

  /** The form body of the token request, fields joined by '&' as they are,
      without URL-encoding. */
  function TokenRequestBody(clientId: string, clientSecret: string): (form: string)
    ensures form == "client_id=" + clientId + "&" + "client_secret=" + clientSecret
                    + "&" + "grant_type=client_credentials"
  {
    Arrays.JoinThree("client_id=" + clientId, "client_secret=" + clientSecret, "grant_type=client_credentials", '&');
    Arrays.Join(["client_id=" + clientId, "client_secret=" + clientSecret, "grant_type=client_credentials"], '&')
  }

  function TokenUrl(host: string): string
  {
    host + "api/oauth/token"
  }

  function PlatformsUrl(host: string): string
  {
    host + "api/v2/config/platforms.json"
  }

  function UpdateUrl(host: string, id: string): string
  {
    PlatformsUrl(host) + "/" + id
  }

  /** The Authorization header; an unset token prints as "undefined". */
  function Bearer(token: Option<string>): (header: string)
    ensures |header| >= 7 && header[..7] == "Bearer "
    ensures token.Some? ==> header[7..] == token.value
  {
    "Bearer " + match token
                case Some(t) => t
                case None => "undefined"
  }

  /** The host the client talks to: the option when it is truthy, else the default. */
  function ClientHost(options: Option<ClientOptions>): (host: string)
    ensures host != ""
    ensures host == DEFAULT_HOST || (options.Some? && options.value.host == Some(host))
  {
    if options.Some? && Truthy(options.value.host) then options.value.host.value
    else DEFAULT_HOST
  }

  /** How `generateAccessToken` reads the token endpoint's reply. */
  function TokenOutcome(reply: Reply): (r: Result<string, Error>)
    ensures r.Success? ==> r.value != "" && reply.status == 200
    ensures r.Failure? ==> r.error.RadarException? && r.error.message != ""
  {
    if reply.data.Some? && reply.data.value.Object? && Truthy(reply.data.value.accessToken)
       && reply.status == 200
    then Success(reply.data.value.accessToken.value)
    else Failure(RadarException(ErrorMessage(TOKEN_ERROR, reply.data)))
  }

  /** How `getPlatforms` reads the listing endpoint's reply. With a filter the
      body must be an array: `data.filter` on an object throws. */
  function ListOutcome(filter: Option<Platform -> bool>, reply: Reply): (r: Result<Body, Error>)
    ensures r.Success? ==> reply.status == 200 && reply.data.Some?
    ensures r.Success? && filter.Some? ==>
              r.value.Array? && reply.data.value.Array? && |r.value.items| <= |reply.data.value.items|
    ensures r.Failure? ==> r.error.message != ""
  {
    if reply.data.Some? && reply.status == 200 then
      match filter
      case None => Success(reply.data.value)
      case Some(keep) =>
        match reply.data.value
        case Array(items) => Success(Array(Arrays.Filter(items, keep)))
        case Object(_, _, _) => Failure(TypeError("data.filter is not a function"))
    else Failure(RadarException(ErrorMessage(PLATFORMS_ERROR, reply.data)))
  }

  /** How `updatePlatform` reads the update endpoint's reply. */
  function UpdateOutcome(reply: Reply): (r: Result<Body, Error>)
    ensures r.Success? ==> reply.status == 200 && reply.data == Some(r.value)
    ensures r.Failure? ==> r.error.RadarException? && r.error.message != ""
  {
    if reply.data.Some? && reply.status == 200 then Success(reply.data.value)
    else Failure(RadarException(ErrorMessage(UPDATE_ERROR, reply.data)))
  }

  /** The token reply is accepted exactly when it has a body, a non-empty
      `access_token` and status 200; the token is then that field. On
      rejection the message is the service's diagnostic or the default. */
  lemma TokenAcceptance(reply: Reply)
    ensures TokenOutcome(reply).Success? <==>
              reply.data.Some? && reply.data.value.Object? &&
              Truthy(reply.data.value.accessToken) && reply.status == 200
    ensures TokenOutcome(reply).Success? ==>
              Some(TokenOutcome(reply).value) == reply.data.value.accessToken &&
              TokenOutcome(reply).value != ""
    ensures TokenOutcome(reply).Failure? ==>
              TokenOutcome(reply).error.RadarException? &&
              TokenOutcome(reply).error.message != "" &&
              (HasDeveloperMessage(reply.data) ==>
                 TokenOutcome(reply).error.message == reply.data.value.developerMessage.value) &&
              (!HasDeveloperMessage(reply.data) ==> TokenOutcome(reply).error.message == TOKEN_ERROR)
  {
  }

  /** The listing is accepted on a body and status 200. With a filter over an
      array, the result is an order-preserving subsequence holding every copy
      of each listed platform the filter keeps and nothing else; without one
      it is the body. */
  lemma ListAcceptance(filter: Option<Platform -> bool>, reply: Reply)
    ensures reply.data.None? || reply.status != 200 ==>
              ListOutcome(filter, reply) == Failure(RadarException(ErrorMessage(PLATFORMS_ERROR, reply.data)))
    ensures reply.data.Some? && reply.status == 200 && filter.None? ==>
              ListOutcome(filter, reply) == Success(reply.data.value)
    ensures reply.data.Some? && reply.status == 200 && filter.Some? && reply.data.value.Array? ==>
              var listed := ListOutcome(filter, reply);
              var items := reply.data.value.items;
              listed.Success? && listed.value.Array? &&
              Arrays.IsSubsequence(listed.value.items, items) &&
              (forall p :: p in listed.value.items <==> p in items && filter.value(p)) &&
              (forall p :: multiset(listed.value.items)[p] == if filter.value(p) then multiset(items)[p] else 0)
  {
    if reply.data.Some? && reply.status == 200 && filter.Some? && reply.data.value.Array? {
      Arrays.FilterIsSubsequence(reply.data.value.items, filter.value);
      Arrays.FilterCount(reply.data.value.items, filter.value);
    }
  }

  /** The update is accepted on a body and status 200, and yields that body;
      otherwise the message is the service's diagnostic or the default. */
  lemma UpdateAcceptance(reply: Reply)
    ensures UpdateOutcome(reply).Success? <==> reply.data.Some? && reply.status == 200
    ensures UpdateOutcome(reply).Success? ==> UpdateOutcome(reply).value == reply.data.value
    ensures UpdateOutcome(reply).Failure? ==>
              UpdateOutcome(reply).error.RadarException? &&
              (HasDeveloperMessage(reply.data) ==>
                 UpdateOutcome(reply).error.message == reply.data.value.developerMessage.value) &&
              (!HasDeveloperMessage(reply.data) ==> UpdateOutcome(reply).error.message == UPDATE_ERROR)
  {
  }

  /** Read back at the '&' separators, the token form gives its three fields,
      as long as neither credential contains '&'. */
  lemma TokenFormFields(clientId: string, clientSecret: string)
    requires '&' !in clientId && '&' !in clientSecret
    ensures Arrays.Split(TokenRequestBody(clientId, clientSecret), '&') ==
              ["client_id=" + clientId, "client_secret=" + clientSecret, "grant_type=client_credentials"]
  {
    var fields := ["client_id=" + clientId, "client_secret=" + clientSecret, "grant_type=client_credentials"];
    assert fields[1..][1..] == ["grant_type=client_credentials"];
    Arrays.SplitJoin(fields, '&');
  }

  /** The form is not URL-encoded: a secret holding one '&' reads back as
      four fields, the tail of the secret becoming a field of its own. */
  lemma TokenFormAmpersand(clientId: string, head: string, tail: string)
    requires '&' !in clientId && '&' !in head && '&' !in tail
    ensures Arrays.Split(TokenRequestBody(clientId, head + "&" + tail), '&') ==
              ["client_id=" + clientId, "client_secret=" + head, tail, "grant_type=client_credentials"]
  {
    var a, b, c := "client_id=" + clientId, "client_secret=" + head, "grant_type=client_credentials";
    var parts := [a, b, tail, c];
    Arrays.JoinThree(b, tail, c, '&');
    assert parts[1..] == [b, tail, c];
    assert Arrays.Join(parts, '&') == a + "&" + (b + "&" + tail + "&" + c);
    assert TokenRequestBody(clientId, head + "&" + tail) == Arrays.Join(parts, '&');
    Arrays.SplitJoin(parts, '&');
  }

  /** Distinct platform ids address distinct update endpoints, all below the
      listing endpoint. */
  lemma UpdateUrlInjective(host: string, a: string, b: string)
    ensures UpdateUrl(host, a)[..|PlatformsUrl(host)| + 1] == PlatformsUrl(host) + "/"
    ensures UpdateUrl(host, a) == UpdateUrl(host, b) <==> a == b
  {
  }

  /** The client object of cedexis.js: its credentials and host are fixed at
      construction; `token` is written by a successful token request and read
      by the two later requests. */
  class Client {
    const clientId: string
    const clientSecret: string
    const host: string
    const verbose: bool
    var token: Option<string>

    constructor (clientId: string, clientSecret: string, options: Option<ClientOptions>)
      ensures this.clientId == clientId && this.clientSecret == clientSecret
      ensures host == ClientHost(options)
      ensures options.Some? && Truthy(options.value.host) ==> host == options.value.host.value
      ensures !(options.Some? && Truthy(options.value.host)) ==> host == DEFAULT_HOST
      ensures verbose <==> options.Some? && options.value.verbose == Some(true)
      ensures token == None
    {
      this.clientId := clientId;
      this.clientSecret := clientSecret;
      host := ClientHost(options);
      verbose := options.Some? && options.value.verbose == Some(true);
      token := None;
    }

    /** Posts the credentials; `reply` is the service's answer. On acceptance
        the token is kept for the later requests, otherwise it is left alone. */
    method GenerateAccessToken(reply: Reply) returns (request: Request, r: Result<string, Error>)
      modifies this`token
      ensures request == Post(TokenUrl(host), FORM_CONTENT_TYPE, TokenRequestBody(clientId, clientSecret))
      ensures r == TokenOutcome(reply)
      ensures token == if r.Success? then Some(r.value) else old(token)
    {
      request := Post(TokenUrl(host), FORM_CONTENT_TYPE, TokenRequestBody(clientId, clientSecret));
      r := TokenOutcome(reply);
      if r.Success? {
        token := Some(r.value);
      }
    }

    /** Fetches all platforms with the stored token and applies the filter. */
    method GetPlatforms(filter: Option<Platform -> bool>, reply: Reply) returns (request: Request, r: Result<Body, Error>)
      ensures request == Get(PlatformsUrl(host), Bearer(token))
      ensures r == ListOutcome(filter, reply)
    {
      request := Get(PlatformsUrl(host), Bearer(token));
      r := ListOutcome(filter, reply);
    }

    /** Puts the platform, as it is, to the endpoint of its id. */
    method UpdatePlatform(platform: Platform, reply: Reply) returns (request: Request, r: Result<Body, Error>)
      ensures request == Put(UpdateUrl(host, platform.id), Bearer(token), JSON_CONTENT_TYPE, platform)
      ensures r == UpdateOutcome(reply)
    {
      request := Put(UpdateUrl(host, platform.id), Bearer(token), JSON_CONTENT_TYPE, platform);
      r := UpdateOutcome(reply);
    }
  }

  /** What the engine throws when the reply callbacks call `setErrorMessage`
      without `this.`: no such function is in scope. */
  const UNQUALIFIED_CALL: Error := ReferenceError("setErrorMessage is not defined")

  /** `generateAccessToken`'s reply callback as written: every rejection
      reaches the unqualified `setErrorMessage` call and throws. */
  function TokenOutcomeAsWritten(reply: Reply): (r: Result<string, Error>)
    ensures r.Failure? ==> !r.error.RadarException?
  {
    if reply.data.Some? && reply.data.value.Object? && Truthy(reply.data.value.accessToken)
       && reply.status == 200
    then Success(reply.data.value.accessToken.value)
    else Failure(UNQUALIFIED_CALL)
  }

  /** `getPlatforms`'s reply callback as written. */
  function ListOutcomeAsWritten(filter: Option<Platform -> bool>, reply: Reply): (r: Result<Body, Error>)
    ensures r.Failure? ==> !r.error.RadarException?
  {
    if reply.data.Some? && reply.status == 200 then ListOutcome(filter, reply)
    else Failure(UNQUALIFIED_CALL)
  }

  /** `updatePlatform`'s reply callback as written. */
  function UpdateOutcomeAsWritten(reply: Reply): (r: Result<Body, Error>)
    ensures r.Failure? ==> !r.error.RadarException?
  {
    if reply.data.Some? && reply.status == 200 then Success(reply.data.value)
    else Failure(UNQUALIFIED_CALL)
  }

  /** For every reply, the callbacks as written accept the same replies with
      the same values as intended; where the intended code fails with the
      message chosen by `ErrorMessage`, the code as written throws instead. */
  lemma UnqualifiedCallPaths(filter: Option<Platform -> bool>, reply: Reply)
    ensures TokenOutcomeAsWritten(reply).Success? <==> TokenOutcome(reply).Success?
    ensures TokenOutcome(reply).Success? ==> TokenOutcomeAsWritten(reply) == TokenOutcome(reply)
    ensures TokenOutcome(reply).Failure? ==>
              TokenOutcomeAsWritten(reply) == Failure(UNQUALIFIED_CALL) &&
              TokenOutcome(reply) == Failure(RadarException(ErrorMessage(TOKEN_ERROR, reply.data)))
    ensures ListOutcomeAsWritten(filter, reply).Success? <==> ListOutcome(filter, reply).Success?
    ensures ListOutcome(filter, reply).Success? ==> ListOutcomeAsWritten(filter, reply) == ListOutcome(filter, reply)
    ensures reply.data.None? || reply.status != 200 ==>
              ListOutcomeAsWritten(filter, reply) == Failure(UNQUALIFIED_CALL) &&
              ListOutcome(filter, reply) == Failure(RadarException(ErrorMessage(PLATFORMS_ERROR, reply.data)))
    ensures UpdateOutcomeAsWritten(reply).Success? <==> UpdateOutcome(reply).Success?
    ensures UpdateOutcome(reply).Success? ==> UpdateOutcomeAsWritten(reply) == UpdateOutcome(reply)
    ensures UpdateOutcome(reply).Failure? ==>
              UpdateOutcomeAsWritten(reply) == Failure(UNQUALIFIED_CALL) &&
              UpdateOutcome(reply) == Failure(RadarException(ErrorMessage(UPDATE_ERROR, reply.data)))
  {
  }

  /** A rejected token reply carrying a diagnostic: as written the diagnostic
      is lost to a ReferenceError; as intended it becomes the error message. */
  lemma UnqualifiedErrorMessageCall()
    ensures var reply := Reply(401, Some(Object(None, Some("Invalid client"), [])));
            TokenOutcomeAsWritten(reply) == Failure(UNQUALIFIED_CALL) &&
            TokenOutcome(reply) == Failure(RadarException("Invalid client"))
  {
  }
}
