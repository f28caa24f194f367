/**
 * The cloud API client (src/lib/API.ts): the request pipeline with its token-refresh and
 * new-terms retry, the default headers, the cached home list, device listing, the cached gateway
 * record and the control-sync command body.
 *
 * The HTTP exchange is an oracle: `env.attempt(call, i)` is the outcome of the i-th transport
 * attempt of the `call`-th logical call, so a retried call sees fresh outcomes.
 */
module ThinQApi {
  import opened Wrappers
  import opened JsValues
  import opened HttpPolicy
  import opened Appliance

  /** What the pipeline cannot see: the network, whether a token refresh succeeds, the result codes. */
  datatype Env = Env(attempt: (nat, nat) -> Attempt, refreshSucceeds: bool, codes: ErrorCodes)

  /**
   * One logical request: the value it resolves to, the transport-level calls it made, and how
   * many token refreshes and new-terms acknowledgements it triggered.
   */
  datatype Trace = Trace(result: Value, calls: nat, refreshes: nat, newTerms: nat)

  /** The `call`-th logical call as the transport carries it out, retries included. */
  function CallTransfer(env: Env, call: nat): Transfer {
    Transport((i: nat) => env.attempt(call, i))
  }

  /** The outcome of the `call`-th logical call after the transport's own retries. */
  function CallOutcome(env: Env, call: nat): Attempt {
    CallTransfer(env, call).outcome
  }

  /** The error class `request` sees for a failed call, after the classifier's pass on every attempt. */
  function CallClass(env: Env, call: nat): ErrorClass
    requires CallOutcome(env, call).Failure?
  {
    Delivered(CallOutcome(env, call).error, env.codes, CallTransfer(env, call).attempts)
  }

  /** The body of a successful call, `{}` for a failed one. */
  function BodyOrEmpty(a: Attempt): Value {
    if a.Success? then a.body else EMPTY
  }

  /** The `call`-th logical call fails because the access token has expired. */
  predicate ExpiredAt(env: Env, call: nat) {
    CallOutcome(env, call).Failure? && CallClass(env, call).TokenExpired?
  }

  /** The `call`-th logical call fails because new terms must be accepted. */
  predicate NewTermsAt(env: Env, call: nat) {
    CallOutcome(env, call).Failure? && CallClass(env, call).ManualProcessNeeded?
  }

  /**
   * `request(method, uri, data, headers, retry)`. It never rejects: a failure resolves to `{}`.
   * A token-expired failure refreshes the token and retries once; a manual-process failure
   * acknowledges the new terms and retries once; the retried call does neither again.
   */
  function Request(env: Env, retry: bool, call: nat): (t: Trace)
    decreases if retry then 0 else 1
    ensures 1 <= t.calls <= (if retry then 1 else 2)
    ensures t.result == BodyOrEmpty(CallOutcome(env, call + t.calls - 1))
    ensures t.refreshes == (if !retry && ExpiredAt(env, call) then 1 else 0)
    ensures t.newTerms == (if NewTermsAt(env, call) then 1 else 0)
      + (if t.calls == 2 && NewTermsAt(env, call + 1) then 1 else 0)
    ensures t.calls == 2 <==>
      CallOutcome(env, call).Failure? && !retry &&
      ((CallClass(env, call).TokenExpired? && env.refreshSucceeds) || CallClass(env, call).ManualProcessNeeded?)
    ensures CallOutcome(env, call).Success? ==> t == Trace(CallOutcome(env, call).body, 1, 0, 0)
  {
    match CallOutcome(env, call)
    case Success(body) => Trace(body, 1, 0, 0)
    case Failure(err) =>
      var cls := CallClass(env, call);
      if cls.TokenExpired? && !retry then
        if env.refreshSucceeds then
          var t := Request(env, true, call + 1);
          Trace(t.result, t.calls + 1, t.refreshes + 1, t.newTerms)
        else
          Trace(EMPTY, 1, 1, 0)
      else if cls.ManualProcessNeeded? then
        if !retry then
          var t := Request(env, true, call + 1);
          Trace(t.result, t.calls + 1, t.refreshes, t.newTerms + 1)
        else
          Trace(EMPTY, 1, 0, 1)
      else
        Trace(EMPTY, 1, 0, 0)
  }

  /** An expired token is refreshed once and the call is replayed; its answer is the result. */
  lemma ExpiredTokenIsRefreshedOnce(env: Env)
    requires CallOutcome(env, 0).Failure?
    requires CallClass(env, 0).TokenExpired?
    requires env.refreshSucceeds
    ensures Request(env, false, 0).calls == 2 && Request(env, false, 0).refreshes == 1
    ensures Request(env, false, 0).result == BodyOrEmpty(CallOutcome(env, 1))
  {
  }

  /** A token that is still expired after the refresh is not refreshed again: the call gives `{}`. */
  lemma ExpiredTwiceGivesEmpty(env: Env)
    requires CallOutcome(env, 0).Failure? && CallOutcome(env, 1).Failure?
    requires CallClass(env, 0).TokenExpired?
    requires CallClass(env, 1).TokenExpired?
    requires env.refreshSucceeds
    ensures Request(env, false, 0) == Trace(EMPTY, 2, 1, 0)
  {
  }

  /** Manual-process on both the call and its retry: terms acknowledged twice, result `{}`. */
  lemma ManualProcessTwiceGivesEmpty(env: Env)
    requires CallOutcome(env, 0).Failure? && CallOutcome(env, 1).Failure?
    requires CallClass(env, 0).ManualProcessNeeded?
    requires CallClass(env, 1).ManualProcessNeeded?
    ensures Request(env, false, 0) == Trace(EMPTY, 2, 0, 2)
  {
  }

  /** A failure the pipeline does not recover from (not connected, or unclassified) gives `{}` at once. */
  lemma UnrecoverableGivesEmpty(env: Env, retry: bool)
    requires CallOutcome(env, 0).Failure?
    requires
      var c := CallClass(env, 0);
      c.NotConnected? || c.Unclassified?
    ensures Request(env, retry, 0) == Trace(EMPTY, 1, 0, 0)
  {
  }

  /**
   * A token-expired or manual-process failure that comes after a transport retry reaches
   * `request` as NotConnected, so nothing is refreshed or acknowledged and the call gives `{}`.
   */
  lemma RetriedFailureIsNotRecovered(env: Env, retry: bool)
    requires CallOutcome(env, 0).Failure? && CallTransfer(env, 0).attempts >= 2
    requires
      var c := Classify(CallOutcome(env, 0).error, env.codes);
      c.TokenExpired? || c.ManualProcessNeeded?
    ensures Request(env, retry, 0) == Trace(EMPTY, 1, 0, 0)
  {
    DeliveredClass(CallOutcome(env, 0).error, env.codes, CallTransfer(env, 0).attempts);
  }

  /** Without a transport retry, `request` reacts to the failure's own class. */
  lemma FirstAttemptClass(env: Env, call: nat)
    requires CallOutcome(env, call).Failure? && CallTransfer(env, call).attempts == 1
    ensures CallClass(env, call) == Classify(CallOutcome(env, call).error, env.codes)
  {
    DeliveredClass(CallOutcome(env, call).error, env.codes, 1);
  }

  // ---------------------------------------------------------------------------------------------
  // Request headers

  /** Values from the constants module, which is not part of this model. */
  datatype ApiConstants = ApiConstants(apiKey: string, clientId: string)

  /** The token pair. An empty string is an unset token. */
  datatype Session = Session(accessToken: string, refreshToken: string, expiresAt: int)

  const UPPER := "ABCDEFGHIJKLMNOPQRSTUVWXYZ"
  const LOWER := "abcdefghijklmnopqrstuvwxyz"
  const DIGITS := "0123456789"
  /** The message-id alphabet. */
  const CHARACTERS := UPPER + LOWER + DIGITS
  const MESSAGE_ID_LENGTH := 22

  predicate IsAlphanumeric(c: char) {
    ('A' <= c <= 'Z') || ('a' <= c <= 'z') || ('0' <= c <= '9')
  }

  lemma CharactersAreAlphanumeric(k: nat)
    requires k < |CHARACTERS|
    ensures IsAlphanumeric(CHARACTERS[k])
  {
    if k < |UPPER| {
      assert CHARACTERS[k] == UPPER[k];
    } else if k < |UPPER| + |LOWER| {
      assert CHARACTERS[k] == LOWER[k - |UPPER|];
    } else {
      assert CHARACTERS[k] == DIGITS[k - |UPPER| - |LOWER|];
    }
  }

  /**
   * `random_string(length)`. The random source is the sequence `draws`, each one a value of
   * `Math.floor(Math.random() * 62)`.
   */
  method RandomString(length: nat, draws: seq<nat>) returns (s: string)
    requires length <= |draws|
    requires forall i :: 0 <= i < |draws| ==> draws[i] < |CHARACTERS|
    ensures |s| == length
    ensures forall i :: 0 <= i < length ==> s[i] == CHARACTERS[draws[i]]
    ensures forall i :: 0 <= i < |s| ==> IsAlphanumeric(s[i])
  {
    var result: seq<char> := [];
    for i := 0 to length
      invariant |result| == i
      invariant forall j :: 0 <= j < i ==> result[j] == CHARACTERS[draws[j]]
      invariant forall j :: 0 <= j < i ==> IsAlphanumeric(result[j])
    {
      CharactersAreAlphanumeric(draws[i]);
      result := result + [CHARACTERS[draws[i]]];
    }
    s := result;
  }

  /** The fixed part of every header set. */
  function BaseHeaders(constants: ApiConstants, country: string, language: string, messageId: string): (h: map<string, string>)
    ensures "x-emp-token" !in h && "x-user-no" !in h && "x-client-id" !in h
    ensures "x-message-id" in h && h["x-message-id"] == messageId
    ensures "x-api-key" in h && h["x-api-key"] == constants.apiKey
    ensures "x-country-code" in h && h["x-country-code"] == country
    ensures "x-language-code" in h && h["x-language-code"] == language
  {
    map[
      "x-api-key" := constants.apiKey,
      "x-thinq-app-ver" := "3.6.1200",
      "x-thinq-app-type" := "NUTS",
      "x-thinq-app-level" := "PRD",
      "x-thinq-app-os" := "ANDROID",
      "x-thinq-app-logintype" := "LGE",
      "x-service-code" := "SVC202",
      "x-country-code" := country,
      "x-language-code" := language,
      "x-service-phase" := "OP",
      "x-origin" := "app-native",
      "x-model-name" := "samsung/SM-G930L",
      "x-os-version" := "AOS/7.1.2",
      "x-app-version" := "LG ThinQ/3.6.12110",
      "x-message-id" := messageId,
      "user-agent" := "okhttp/3.14.9"
    ]
  }

  /** The headers that identify the account; they override the fixed ones. */
  function AccountHeaders(accessToken: string, userNumber: string, clientId: string): (h: map<string, string>)
    ensures h.Keys <= {"x-emp-token", "x-user-no", "x-client-id"}
    ensures ("x-emp-token" in h) <==> accessToken != ""
    ensures "x-emp-token" in h ==> h["x-emp-token"] == accessToken
    ensures ("x-user-no" in h) <==> userNumber != ""
    ensures "x-user-no" in h ==> h["x-user-no"] == userNumber
    ensures "x-client-id" in h && h["x-client-id"] == clientId
  {
    var token := if accessToken != "" then map["x-emp-token" := accessToken] else map[];
    var user := if userNumber != "" then map["x-user-no" := userNumber] else map[];
    (token + user)["x-client-id" := clientId]
  }

  /** A `POST` the API sends: path relative to the gateway and the JSON body. */
  datatype PostRequest = PostRequest(path: string, body: map<string, Value>)

  function CommandName(c: CommandKind): string {
    match c
    case Set => "Set"
    case Operation => "Operation"
  }

  /**
   * `sendCommandToDevice`: a `POST` to the device's control-sync path whose body is
   * `{ctrlKey, command, ...values}`; a key of `values` overrides the two fixed fields.
   */
  function ControlSync(deviceId: string, values: map<string, Value>, command: CommandKind, ctrlKey: string): (p: PostRequest)
    ensures p.path == "service/devices/" + deviceId + "/control-sync"
    ensures p.body.Keys == values.Keys + {"ctrlKey", "command"}
    ensures forall k :: k in values ==> p.body[k] == values[k]
    ensures "ctrlKey" !in values ==> p.body["ctrlKey"] == Str(ctrlKey)
    ensures "command" !in values ==> p.body["command"] == Str(CommandName(command))
  {
    PostRequest("service/devices/" + deviceId + "/control-sync",
      map["ctrlKey" := Str(ctrlKey), "command" := Str(CommandName(command))] + values)
  }

  // ---------------------------------------------------------------------------------------------
  // Home and device listing

  /** `getListHomes` given the cache and the response body: `response.result.item` unless cached. */
  function HomesOutcome(cached: Value, response: Value): (r: Result<Value, TypeError>)
    ensures Truthy(cached) ==> r == Ok(cached)
    ensures !Truthy(cached) && r.Ok? ==> r.value == Field(Field(response, "result"), "item")
    ensures !Truthy(cached) ==>
      (r.Err? <==> response.Undef? || response.Null? || Field(response, "result").Undef? || Field(response, "result").Null?)
  {
    if Truthy(cached) then Ok(cached)
    else
      match Prop(response, "result")
      case Err(e) => Err(e)
      case Ok(res) => Prop(res, "item")
  }

  /** What `for (let i = 0; i < xs.length; i++) xs[i]` visits; reading `length` of a nullish value throws. */
  function Indexed(v: Value): (r: Result<seq<Value>, TypeError>)
    ensures r.Err? <==> v.Undef? || v.Null?
    ensures v.Arr? ==> r == Ok(v.items)
  {
    match v
    case Undef => Err(TypeError)
    case Null => Err(TypeError)
    case Arr(xs) => Ok(xs)
    case Str(s) => Ok(seq(|s|, i requires 0 <= i < |s| => Str([s[i]])))
    case _ => Ok([])
  }

  /** `...x` inside an array literal: only arrays and strings are iterable. */
  function Spread(v: Value): (r: Result<seq<Value>, TypeError>)
    ensures r.Ok? <==> v.Arr? || v.Str?
    ensures v.Arr? ==> r == Ok(v.items)
  {
    match v
    case Arr(xs) => Ok(xs)
    case Str(s) => Ok(seq(|s|, i requires 0 <= i < |s| => Str([s[i]])))
    case _ => Err(TypeError)
  }

  /** `resp.result.devices`, spread. */
  function HomeDevices(resp: Value): Result<seq<Value>, TypeError> {
    match Prop(resp, "result")
    case Err(e) => Err(e)
    case Ok(res) =>
      match Prop(res, "devices")
      case Err(e) => Err(e)
      case Ok(ds) => Spread(ds)
  }

  /** The devices of one home: the home's id is read, its page fetched, its device list spread. */
  function DevicesOfHome(home: Value, respond: Value -> Value): Result<seq<Value>, TypeError> {
    match Prop(home, "homeId")
    case Err(e) => Err(e)
    case Ok(homeId) => HomeDevices(respond(homeId))
  }

  /** Two listings one after the other: the first failure wins, otherwise the devices in order. */
  function Concat(x: Result<seq<Value>, TypeError>, y: Result<seq<Value>, TypeError>): Result<seq<Value>, TypeError> {
    if x.Err? then x else if y.Err? then y else Ok(x.value + y.value)
  }

  /**
   * The device list of `homes` in home order; the first home whose page has no device list makes
   * the whole listing throw. `respond(homeId)` is the body `service/homes/<homeId>` resolves to.
   */
  function AllDevices(homes: seq<Value>, respond: Value -> Value): (r: Result<seq<Value>, TypeError>)
    ensures r.Err? <==> exists i :: 0 <= i < |homes| && DevicesOfHome(homes[i], respond).Err?
    decreases |homes|
  {
    if homes == [] then Ok([])
    else Concat(AllDevices(homes[..|homes| - 1], respond), DevicesOfHome(homes[|homes| - 1], respond))
  }

  lemma ConcatAssociative(x: Result<seq<Value>, TypeError>, y: Result<seq<Value>, TypeError>, z: Result<seq<Value>, TypeError>)
    ensures Concat(Concat(x, y), z) == Concat(x, Concat(y, z))
  {
    if x.Ok? && y.Ok? && z.Ok? {
      assert (x.value + y.value) + z.value == x.value + (y.value + z.value);
    }
  }

  /** Listing a concatenation of home lists concatenates the device lists, and fails if either part does. */
  lemma {:induction false} AllDevicesAppend(a: seq<Value>, b: seq<Value>, respond: Value -> Value)
    ensures AllDevices(a + b, respond) == Concat(AllDevices(a, respond), AllDevices(b, respond))
    decreases |b|
  {
    if b == [] {
      assert a + b == a;
      var x := AllDevices(a, respond);
      if x.Ok? {
        assert x.value + [] == x.value;
      }
    } else {
      var b' := b[..|b| - 1];
      assert (a + b)[..|a + b| - 1] == a + b';
      assert (a + b)[|a + b| - 1] == b[|b| - 1];
      AllDevicesAppend(a, b', respond);
      ConcatAssociative(AllDevices(a, respond), AllDevices(b', respond), DevicesOfHome(b[|b| - 1], respond));
    }
  }

  /** One more home adds its own listing at the end. */
  lemma AllDevicesStep(homes: seq<Value>, i: nat, respond: Value -> Value)
    requires i < |homes|
    ensures AllDevices(homes[..i + 1], respond) == Concat(AllDevices(homes[..i], respond), DevicesOfHome(homes[i], respond))
  {
    assert homes[..i + 1][..i] == homes[..i];
  }

  /** Once a prefix of the homes fails, the whole listing fails with the same error. */
  lemma AllDevicesFailsEarly(homes: seq<Value>, i: nat, respond: Value -> Value)
    requires i <= |homes| && AllDevices(homes[..i], respond).Err?
    ensures AllDevices(homes, respond) == AllDevices(homes[..i], respond)
  {
    AllDevicesAppend(homes[..i], homes[i..], respond);
    assert homes[..i] + homes[i..] == homes;
  }

  /** Each home contributes exactly its own devices. */
  lemma AllDevicesOfOneHome(home: Value, respond: Value -> Value)
    ensures AllDevices([home], respond) == DevicesOfHome(home, respond)
  {
    assert [home][..0] == [];
    var d := DevicesOfHome(home, respond);
    if d.Ok? {
      assert [] + d.value == d.value;
    }
  }

  /** The outcome of `getListDevices` given the cached home list and the bodies the requests resolve to. */
  function ListDevices(cached: Value, homesResponse: Value, respond: Value -> Value): (r: Result<seq<Value>, TypeError>)
    ensures cached.Arr? ==> r == AllDevices(cached.items, respond)
    ensures HomesOutcome(cached, homesResponse).Err? ==> r.Err?
    ensures !Truthy(cached) && Field(Field(homesResponse, "result"), "item").Arr? ==>
      r == AllDevices(Field(Field(homesResponse, "result"), "item").items, respond)
  {
    match HomesOutcome(cached, homesResponse)
    case Err(e) => Err(e)
    case Ok(homeList) =>
      match Indexed(homeList)
      case Err(e) => Err(e)
      case Ok(hs) => AllDevices(hs, respond)
  }

  /** `gateway()` did not get its record: the request was rejected, or its body had no `result`. */
  datatype GatewayFailure = GatewayRejected | GatewayTypeError

  class Api {
    var session: Session
    var userNumber: string
    var clientId: string
    var username: string
    var password: string
    /** `_homes`: the cached home list, `Undef` until fetched. */
    var homes: Value
    /** `_gateway`: the cached gateway record. */
    var gateway: Option<Value>
    const country: string
    const language: string
    const constants: ApiConstants

    constructor (country: string, language: string, constants: ApiConstants)
      ensures session == Session("", "", 0) && userNumber == "" && clientId == ""
      ensures username == "" && password == "" && homes == Undef && gateway == None
      ensures this.country == country && this.language == language && this.constants == constants
    {
      session := Session("", "", 0);
      userNumber := "";
      clientId := "";
      username := "";
      password := "";
      homes := Undef;
      gateway := None;
      this.country := country;
      this.language := language;
      this.constants := constants;
    }

    /**
     * `defaultHeaders`: the fixed headers, a 22-character message id, and the token, user number
     * and client id, which come last and so win over a fixed header of the same name.
     */
    method DefaultHeaders(draws: seq<nat>) returns (headers: map<string, string>)
      requires MESSAGE_ID_LENGTH <= |draws|
      requires forall i :: 0 <= i < |draws| ==> draws[i] < |CHARACTERS|
      ensures ("x-emp-token" in headers) <==> session.accessToken != ""
      ensures "x-emp-token" in headers ==> headers["x-emp-token"] == session.accessToken
      ensures ("x-user-no" in headers) <==> userNumber != ""
      ensures "x-user-no" in headers ==> headers["x-user-no"] == userNumber
      ensures "x-client-id" in headers
      ensures headers["x-client-id"] == if clientId != "" then clientId else constants.clientId
      ensures "x-message-id" in headers && |headers["x-message-id"]| == MESSAGE_ID_LENGTH
      ensures forall i :: 0 <= i < |headers["x-message-id"]| ==> IsAlphanumeric(headers["x-message-id"][i])
      ensures "x-api-key" in headers && headers["x-api-key"] == constants.apiKey
      ensures "x-country-code" in headers && headers["x-country-code"] == country
      ensures "x-language-code" in headers && headers["x-language-code"] == language
    {
      var messageId := RandomString(MESSAGE_ID_LENGTH, draws);
      var own := AccountHeaders(session.accessToken, userNumber, if clientId != "" then clientId else constants.clientId);
      var base := BaseHeaders(constants, country, language, messageId);
      headers := base + own;
    }

    /** `getListHomes`, given the body `service/homes` resolves to; a truthy list is cached. */
    method GetListHomes(response: Value) returns (r: Result<Value, TypeError>)
      modifies this`homes
      ensures r == HomesOutcome(old(homes), response)
      ensures homes == if r.Ok? then r.value else old(homes)
    {
      if !Truthy(homes) {
        match Prop(response, "result")
        case Err(e) =>
          r := Err(e);
          return;
        case Ok(res) =>
          var item := Prop(res, "item");
          if item.Err? {
            r := item;
            return;
          }
          homes := item.value;
      }
      r := Ok(homes);
    }

    /** The device-listing loop over the homes, one page request per home. */
    method CollectDevices(homeList: seq<Value>, respond: Value -> Value) returns (r: Result<seq<Value>, TypeError>)
      ensures r == AllDevices(homeList, respond)
    {
      var devices: seq<Value> := [];
      for i := 0 to |homeList|
        invariant AllDevices(homeList[..i], respond) == Ok(devices)
      {
        AllDevicesStep(homeList, i, respond);
        var ds := DevicesOfHome(homeList[i], respond);
        if ds.Err? {
          r := Err(ds.error);
          AllDevicesFailsEarly(homeList, i + 1, respond);
          return;
        }
        devices := devices + ds.value;
      }
      assert homeList[..|homeList|] == homeList;
      r := Ok(devices);
    }

    /** `getListDevices`: the home list (cached or fetched), then every home's devices in order. */
    method GetListDevices(homesResponse: Value, respond: Value -> Value) returns (r: Result<seq<Value>, TypeError>)
      modifies this`homes
      ensures r == ListDevices(old(homes), homesResponse, respond)
      ensures homes == if HomesOutcome(old(homes), homesResponse).Ok? then HomesOutcome(old(homes), homesResponse).value else old(homes)
    {
      var h := GetListHomes(homesResponse);
      if h.Err? {
        r := Err(h.error);
        return;
      }
      var list := Indexed(h.value);
      if list.Err? {
        r := Err(list.error);
        return;
      }
      r := CollectDevices(list.value, respond);
    }

    /** `gateway()`: fetched once, then served from the cache. `fetched` is the response body, or `None` if rejected. */
    method Gateway(fetched: Option<Value>) returns (r: Result<Value, GatewayFailure>)
      modifies this`gateway
      ensures old(gateway).Some? ==> r == Ok(old(gateway).value) && gateway == old(gateway)
      ensures old(gateway).None? && fetched.None? ==> r == Err(GatewayRejected) && gateway == None
      ensures old(gateway).None? && fetched.Some? ==>
        match Prop(fetched.value, "result")
        case Err(_) => r == Err(GatewayTypeError) && gateway == None
        case Ok(v) => r == Ok(v) && gateway == Some(v)
    {
      if gateway.None? {
        if fetched.None? {
          return Err(GatewayRejected);
        }
        var res := Prop(fetched.value, "result");
        if res.Err? {
          return Err(GatewayTypeError);
        }
        gateway := Some(res.value);
      }
      r := Ok(gateway.value);
    }

    /** `setRefreshToken`: a session holding only the refresh token. */
    method SetRefreshToken(refreshToken: string)
      modifies this`session
      ensures session == Session("", refreshToken, 0)
    {
      session := Session("", refreshToken, 0);
    }

    method SetUsernamePassword(username: string, password: string)
      modifies this`username, this`password
      ensures this.username == username && this.password == password
    {
      this.username := username;
      this.password := password;
    }
  }
}
