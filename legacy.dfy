/**
 * The client of the first C++ revision (amber_sdk.cpp): the constructor, the
 * four request helpers and their reply handling, `authenticate`, the
 * non-blocking path of `pretrain_sensor`, and the two root-cause endpoints with
 * their argument checks.
 *
 * As for the current revision, every operation is a method on the client
 * object, proved equal to a function of the state before the call. Here that
 * state also holds `last_code` and `last_error`, which every request helper
 * writes. Exceptions are values: the request helpers let a JSON error escape
 * when a failed reply carries no "message", and the endpoints catch it.
 */
module LegacyClient {
  import opened Wrappers
  import opened Strings
  import opened Json
  import opened Models
  import opened Codec
  import opened Credentials
  import opened Transport
  import opened Client

  /** The first header of every request. */
  const ContentTypeHeader: string := "Content-Type: application/json"

  /** The header naming the sensor, "sensorId:<id>". */
  const SensorIdPrefix: string := "sensorId:"

  const OAuthSlug: string := "/oauth2"
  const PretrainSlug: string := "/pretrain"
  const RootCauseSlug: string := "/rootCause"

  /** `sizeof(last_error)`: a character array has at least one element. */
  type Capacity = n: nat | n >= 1 witness 1

  /** A `const char *` constructor argument; `None` is NULL, which the constructor replaces by "". */
  function Deref(p: Option<string>): (s: string)
    ensures p.Some? ==> s == p.value
    ensures p.None? ==> s == ""
  {
    if p.Some? then p.value else ""
  }

  /**
   * `last_error` after `strncpy(last_error, message.c_str(), capacity - 1)`,
   * read as a C string: at most `capacity - 1` characters of the message, up to
   * its first NUL. The array's last element is taken to hold a NUL.
   */
  function Strncpy(message: string, capacity: Capacity): string {
    var c := CString(message);
    if |c| < capacity then c else c[..capacity - 1]
  }

  /** The body `authenticate` posts: the `auth_request` of the username and password. */
  function OAuthBody(l: LicenseEntry, dump: Json -> string): string {
    dump(AuthRequestJson(l.username, l.password))
  }

  /** `to_json(pretrain_sensor_request)`: the CSV text as "data" and the autotune flag. */
  function LegacyPretrainJson(csvdata: string, autotuneConfig: bool): Json {
    JObject(map["data" := JString(csvdata), "autotuneConfig" := JBool(autotuneConfig)])
  }

  // ----- the transfers --------------------------------------------------------------

  /** The sensor header, present only for a non-empty sensor id. */
  function SensorLine(sensorId: string): seq<string> {
    if sensorId == "" then [] else [SensorIdPrefix + sensorId]
  }

  /** A POST body longer than the threshold is sent compressed. */
  predicate Zipped(body: string) {
    |body| > CompressionThreshold
  }

  /**
   * The transfer of `post_request`: the content type, the bearer header when
   * authenticating, the user agent, the sensor header, and the gzip marker with
   * a compressed body when the body is long.
   */
  function PostTransfer(url: string, sensorId: string, body: string, bearer: Option<string>, ssl: Ssl,
                        gzip: string -> string): Transfer
  {
    Transfer("POST", url,
             [ContentTypeHeader] + (if bearer.Some? then [bearer.value] else []) + [UserAgent] + SensorLine(sensorId)
             + (if Zipped(body) then [GzipHeader] else []),
             Some(if Zipped(body) then gzip(body) else body), TlsOptions(ssl))
  }

  /** The transfer of `get_request`: the query string joins the URL. */
  function GetTransfer(url: string, query: string, sensorId: string, bearer: string, ssl: Ssl): Transfer {
    Transfer("GET", url + query, [ContentTypeHeader, bearer, UserAgent] + SensorLine(sensorId), None, TlsOptions(ssl))
  }

  /** The transfer of `put_request`: the body is passed without a length, so curl sends it up to its first NUL. */
  function PutTransfer(url: string, sensorId: string, body: string, bearer: string, ssl: Ssl): Transfer {
    Transfer("PUT", url, [ContentTypeHeader, bearer, UserAgent] + SensorLine(sensorId), Some(CString(body)),
             TlsOptions(ssl))
  }

  /** The transfer of `delete_request`: the sensor header is sent even for an empty id. */
  function DeleteTransfer(url: string, sensorId: string, bearer: string, ssl: Ssl): Transfer {
    Transfer("DELETE", url, [ContentTypeHeader, bearer, UserAgent, SensorIdPrefix + sensorId], None, TlsOptions(ssl))
  }

  // ----- the state and the specification of the operations ---------------------------

  /** Everything an operation can change: the profile, the token cache, `last_code`, `last_error`, and the transfers made. */
  datatype LegacyState = LegacyState(profile: Profile, cache: TokenCache, lastCode: int, lastError: string,
                                     sent: seq<Transfer>)

  /** The effect of a request helper: the new state, the caller's JSON response, and the code returned or the error thrown. */
  datatype Exchange = Exchange(state: LegacyState, response: Json, result: Result<int, JsonError>)

  /** The effect of `authenticate`: the new state, the caller's JSON response, and its result. */
  datatype AuthOutcome = AuthOutcome(state: LegacyState, response: Json, ok: bool)

  /**
   * Performing a transfer and reading its reply: a failed transfer returns its
   * `CURLcode` and leaves libcurl's error text in `last_error`; a 2xx reply
   * becomes the response; any other reply copies its "message" into `last_error`,
   * or throws when there is no string "message".
   */
  function Performed(st: LegacyState, o: Oracle, t: Transfer, response: Json, capacity: Capacity): Exchange {
    var sent := st.sent + [t];
    match o.respond(sent)
    case Failed(c, text) => Exchange(st.(sent := sent, lastCode := c, lastError := text), response, Ok(c))
    case Completed(code, _, body) =>
      if 200 <= code < 300 then Exchange(st.(sent := sent, lastCode := code), body, Ok(code))
      else
        match StringAt(body, "message")
        case Err(e) => Exchange(st.(sent := sent, lastCode := code), response, Err(e))
        case Ok(m) => Exchange(st.(sent := sent, lastCode := code, lastError := Strncpy(m, capacity)), response, Ok(code))
  }

  /** `reset_last_message`: the error text is cleared. */
  function Reset(st: LegacyState): LegacyState {
    st.(lastError := "")
  }

  /**
   * `authenticate`: a fresh token is reused; otherwise the token is marked
   * unusable and the credentials are posted without authentication. Anything
   * but a 200 fails; after a 200 the token is marked usable, the grant decoded
   * and its lifetime read, and any exception on the way fails the call.
   */
  function Authenticated(st: LegacyState, o: Oracle, response: Json, now: Time, capacity: Capacity): AuthOutcome
    decreases 1
  {
    if TokenFresh(st.cache, now) then AuthOutcome(st, response, true)
    else
      var l := st.profile.license;
      var e := Posted(st.(cache := st.cache.(authOk := false)), o, l.oauthServer + OAuthSlug, "",
                      OAuthBody(l, o.dump), false, response, now, capacity);
      if e.result != Ok(200) then AuthOutcome(e.state, e.response, false)
      else
        var usable := e.state.cache.(authOk := true);
        match AuthFromJson(e.response)
        case Err(_) => AuthOutcome(e.state.(cache := usable), e.response, false)
        case Ok(a) =>
          var (c, r) := Grant(usable, a, now);
          AuthOutcome(e.state.(cache := c), e.response, r == Ok(true))
  }

  /**
   * A request made after `authenticate`: when that fails the helper returns
   * `last_code` and sends nothing; otherwise it makes the transfer `build` gives
   * for the bearer header.
   */
  function Authorized(st: LegacyState, o: Oracle, build: string -> Transfer, response: Json, now: Time,
                      capacity: Capacity): Exchange
    decreases 2
  {
    var a := Authenticated(Reset(st), o, response, now, capacity);
    if !a.ok then Exchange(a.state, a.response, Ok(a.state.lastCode))
    else Performed(a.state, o, build(a.state.cache.bearer), a.response, capacity)
  }

  /** `post_request`: authenticated or not as `doAuth` says. */
  function Posted(st: LegacyState, o: Oracle, url: string, sensorId: string, body: string, doAuth: bool,
                  response: Json, now: Time, capacity: Capacity): Exchange
    decreases if doAuth then 3 else 0
  {
    var ssl := st.profile.ssl;
    if doAuth then Authorized(st, o, b => PostTransfer(url, sensorId, body, Some(b), ssl, o.gzip), response, now, capacity)
    else Performed(Reset(st), o, PostTransfer(url, sensorId, body, None, ssl, o.gzip), response, capacity)
  }

  /** `pretrain_sensor` without blocking: a 200 or 202 whose body decodes gives the new record. */
  function Pretrained(st: LegacyState, o: Oracle, response: PretrainState, sensorId: string, csvdata: string,
                      autotuneConfig: bool, now: Time, capacity: Capacity): (LegacyState, PretrainState, bool)
  {
    var e := Posted(st, o, st.profile.license.server + PretrainSlug, sensorId,
                    o.dump(LegacyPretrainJson(csvdata, autotuneConfig)), true, JNull, now, capacity);
    if e.result.Err? || (e.result.value != 200 && e.result.value != 202) then (e.state, response, false)
    else
      match PretrainFromJson(e.response, PretrainState("", ""))
      case Err(_) => (e.state, response, false)
      case Ok(p) => (e.state, p, true)
  }

  /** Why a root-cause endpoint throws before sending anything. */
  datatype ArgumentError =
    | MalformedIdList      // "idlist should be in the form [1,2,3]"
    | MalformedPatternList // "patternlist should be in the form [[1,2,3],[1,2,3]]"

  /** The query of a root-cause endpoint: a 200 whose body decodes gives the rows. */
  function RootCauseQueried(st: LegacyState, o: Oracle, query: string, sensorId: string, rows: seq<seq<int>>,
                            now: Time, capacity: Capacity): (LegacyState, seq<seq<int>>, bool)
  {
    var url := st.profile.license.server + RootCauseSlug;
    var ssl := st.profile.ssl;
    var e := Authorized(st, o, b => GetTransfer(url, query, sensorId, b, ssl), JNull, now, capacity);
    if e.result != Ok(200) then (e.state, rows, false)
    else
      match AppendRows(Elements(e.response), [])
      case Err(_) => (e.state, rows, false)
      case Ok(r) => (e.state, r, true)
  }

  // ----- the client -----------------------------------------------------------------

  class LegacySdk {
    var license: LicenseEntry
    var licenseId: string
    var licenseFile: string
    var ssl: Ssl
    var auth: AuthResponse
    var expiresIn: Uint64
    var authOk: bool
    var authTime: Time
    var authBearHeader: string
    var lastCode: int
    var lastError: string
    /** `sizeof(last_error)`. */
    const capacity: Capacity
    /** The network, `compress_string` and `json::dump`. */
    const host: Host

    function Profiled(): Profile
      reads this
    {
      Profile(licenseId, licenseFile, license, ssl)
    }

    function Cache(): TokenCache
      reads this
    {
      TokenCache(auth, expiresIn, authOk, authTime, authBearHeader)
    }

    function State(): LegacyState
      reads this, host
    {
      LegacyState(Profiled(), Cache(), lastCode, lastError, host.sent)
    }

    function World(): Oracle {
      Oracle(host.respond, host.gzip, host.dump)
    }

    /** The members the constructor sets before resolving the profile: zeros, false and empty strings. */
    constructor (host: Host, capacity: Capacity)
      ensures Profiled() == EmptyProfile && Cache() == NoToken && lastCode == 0 && lastError == ""
      ensures this.host == host && this.capacity == capacity
    {
      license := EmptyLicense;
      licenseId := "";
      licenseFile := "";
      ssl := NoSsl;
      auth := EmptyAuth;
      expiresIn := 0;
      authOk := false;
      authTime := 0;
      authBearHeader := "";
      lastCode := 0;
      lastError := "";
      this.capacity := capacity;
      this.host := host;
    }

    /**
     * The constructor: NULL arguments become empty strings, then the profile is
     * resolved as the legacy revision does, or the constructor throws.
     */
    static method Create(licenseId: Option<string>, licenseFile: Option<string>, verifyCert: bool,
                         cert: Option<string>, cainfo: Option<string>, env: Env, expand: string -> string,
                         read: string -> LicenseFile, host: Host, capacity: Capacity)
      returns (r: Result<LegacySdk, InitError>)
      ensures var args := InitArgs(Deref(licenseId), Deref(licenseFile), verifyCert, Deref(cert), Deref(cainfo));
        var (p, o) := Resolve(Legacy, args, env, expand, read, EmptyProfile);
        && (r.Ok? <==> o == Pass)
        && (r.Err? ==> o == Fail(r.error))
        && (r.Ok? ==> && fresh(r.value) && r.value.host == host && r.value.Profiled() == p
                      && r.value.Cache() == NoToken && r.value.lastCode == 0 && r.value.lastError == "")
    {
      var sdk := new LegacySdk(host, capacity);
      var outcome := sdk.Init(InitArgs(Deref(licenseId), Deref(licenseFile), verifyCert, Deref(cert), Deref(cainfo)),
                              env, expand, read);
      if outcome.Fail? {
        return Err(outcome.error);
      }
      return Ok(sdk);
    }

    /** The resolution part of the constructor: the fields written and the outcome are those `Resolve` gives. */
    method Init(args: InitArgs, env: Env, expand: string -> string, read: string -> LicenseFile)
      returns (outcome: Outcome<InitError>)
      modifies this
      ensures (Profiled(), outcome) == Resolve(Legacy, args, env, expand, read, old(Profiled()))
      ensures Cache() == old(Cache()) && lastCode == old(lastCode) && lastError == old(lastError)
    {
      ghost var prior := Profiled();
      licenseFile := Getenv(env, "AMBER_LICENSE_FILE", args.licenseFile);
      licenseId := Getenv(env, "AMBER_LICENSE_ID", args.licenseId);
      var loaded: Result<LicenseEntry, InitError> := Ok(license);
      if licenseFile != "" {
        licenseFile := expand(licenseFile);
        loaded := LoadLicense(Legacy, args.licenseFile, licenseFile, licenseId, read(licenseFile), license);
        if loaded.Err? {
          ResolveStages(Legacy, args, env, expand, read, prior, loaded);
          return Fail(loaded.error);
        }
        license := loaded.value;
      }
      ResolveStages(Legacy, args, env, expand, read, prior, loaded);
      assert licenseId == EffectiveId(env, args) && licenseFile == StoredPath(env, args, expand);
      ApplyEnvironment(env, args);
      if license.username == "" {
        outcome := Fail(NotSpecified("username"));
      } else if license.password == "" {
        outcome := Fail(NotSpecified("password"));
      } else if license.server == "" {
        outcome := Fail(NotSpecified("server"));
      } else {
        outcome := Pass;
      }
    }

    /** The environment block of the constructor, as in the current revision. */
    method ApplyEnvironment(env: Env, args: InitArgs)
      modifies this
      ensures license == ApplyOverrides(env, old(license)) && ssl == ResolveSsl(env, args)
      ensures licenseId == old(licenseId) && licenseFile == old(licenseFile) && Cache() == old(Cache())
      ensures lastCode == old(lastCode) && lastError == old(lastError)
    {
      OverrideCredentials(env);
      ResolveTls(env, args);
    }

    /** Each set `AMBER_*` credential variable replaces its own field; an empty OAuth server becomes the server. */
    method OverrideCredentials(env: Env)
      modifies this
      ensures license == ApplyOverrides(env, old(license))
      ensures ssl == old(ssl) && licenseId == old(licenseId) && licenseFile == old(licenseFile)
      ensures Cache() == old(Cache()) && lastCode == old(lastCode) && lastError == old(lastError)
    {
      license := license.(username := Getenv(env, "AMBER_USERNAME", license.username));
      license := license.(password := Getenv(env, "AMBER_PASSWORD", license.password));
      license := license.(server := Getenv(env, "AMBER_SERVER", license.server));
      license := license.(oauthServer := Getenv(env, "AMBER_OAUTH_SERVER", license.oauthServer));
      if |license.oauthServer| == 0 {
        license := license.(oauthServer := license.server);
      }
    }

    /** The TLS options from the arguments, `AMBER_SSL_CERT` and `AMBER_SSL_VERIFY`. */
    method ResolveTls(env: Env, args: InitArgs)
      modifies this
      ensures ssl == ResolveSsl(env, args)
      ensures license == old(license) && licenseId == old(licenseId) && licenseFile == old(licenseFile)
      ensures Cache() == old(Cache()) && lastCode == old(lastCode) && lastError == old(lastError)
    {
      ssl := ssl.(cert := Getenv(env, "AMBER_SSL_CERT", args.cert));
      ssl := ssl.(verify := args.verifyCert);
      ssl := ssl.(cainfo := args.cainfo);
      if "AMBER_SSL_VERIFY" in env {
        ssl := ssl.(verify := true);
        if EqualsIgnoreCase("false", env["AMBER_SSL_VERIFY"]) {
          ssl := ssl.(verify := false);
          ssl := ssl.(cainfo := "");
        } else if !EqualsIgnoreCase("true", env["AMBER_SSL_VERIFY"]) {
          ssl := ssl.(cainfo := env["AMBER_SSL_VERIFY"]);
        }
      }
    }

    /** `curl_easy_perform` and the reply handling shared by the four request helpers. */
    method Perform(t: Transfer, response: Json) returns (result: Result<int, JsonError>, answer: Json)
      modifies this, host
      ensures Exchange(State(), answer, result) == Performed(old(State()), World(), t, response, capacity)
    {
      answer := response;
      var reply := host.Perform(t);
      match reply
      case Failed(c, text) =>
        lastCode := c;
        lastError := text;
        result := Ok(c);
      case Completed(code, _, body) =>
        lastCode := code;
        if 200 <= code < 300 {
          answer := body;
        } else {
          var message := StringAt(body, "message");
          if message.Err? {
            return Err(message.error), answer;
          }
          lastError := Strncpy(message.value, capacity);
        }
        result := Ok(code);
    }

    /** `authenticate`: the state, the response and the result are those `Authenticated` gives. */
    method Authenticate(response: Json, now: Time) returns (ok: bool, answer: Json)
      modifies this, host
      ensures AuthOutcome(State(), answer, ok) == Authenticated(old(State()), World(), response, now, capacity)
      decreases 1
    {
      if authOk && (now + expiresIn - 100) % Two64 < authTime % Two64 {
        return true, response;
      }
      ghost var s0 := State();
      assert !TokenFresh(s0.cache, now);
      authOk := false;
      var body := host.dump(AuthRequestJson(license.username, license.password));
      var result;
      result, answer := PostRequest(license.oauthServer + OAuthSlug, "", body, false, response, now);
      ok := AcceptGrant(result, answer, now);
    }

    /** The end of `authenticate`: after a 200 the token is marked usable and the grant decoded and stored. */
    method AcceptGrant(result: Result<int, JsonError>, answer: Json, now: Time) returns (ok: bool)
      modifies this
      ensures var c := old(Cache());
        && (result != Ok(200) ==> !ok && Cache() == c)
        && (result == Ok(200) && AuthFromJson(answer).Err? ==> !ok && Cache() == c.(authOk := true))
        && (result == Ok(200) && AuthFromJson(answer).Ok? ==>
              var (c', r) := Grant(c.(authOk := true), AuthFromJson(answer).value, now);
              Cache() == c' && ok == (r == Ok(true)))
      ensures Profiled() == old(Profiled()) && lastCode == old(lastCode) && lastError == old(lastError)
    {
      if result != Ok(200) {
        return false;
      }
      authOk := true;
      var decoded := AuthFromJson(answer);
      if decoded.Err? {
        return false;
      }
      var r := StoreGrant(decoded.value, now);
      ok := r == Ok(true);
    }

    /** Storing a decoded grant, as `Grant` says; nothing but the token cache changes. */
    method StoreGrant(grant: AuthResponse, now: Time) returns (r: Result<bool, Exception>)
      modifies this
      ensures (Cache(), r) == Grant(old(Cache()), grant, now)
      ensures Profiled() == old(Profiled()) && lastCode == old(lastCode) && lastError == old(lastError)
    {
      auth := grant;
      authOk := true;
      var lifetime := Stoul(grant.expiresIn);
      if lifetime.Err? {
        return Err(StoulException(lifetime.error));
      }
      expiresIn := lifetime.value;
      authTime := ToTime((now + lifetime.value) % Two64);
      authBearHeader := BearerPrefix + grant.idToken;
      r := Ok(true);
    }

    /** `post_request`: the state, the response and the result are those `Posted` gives. */
    method PostRequest(url: string, sensorId: string, body: string, doAuth: bool, response: Json, now: Time)
      returns (result: Result<int, JsonError>, answer: Json)
      modifies this, host
      ensures Exchange(State(), answer, result) == Posted(old(State()), World(), url, sensorId, body, doAuth, response, now, capacity)
      decreases if doAuth then 3 else 0
    {
      var tls := ssl;
      if doAuth {
        result, answer := Authorize(response, now, b => PostTransfer(url, sensorId, body, Some(b), tls, host.gzip));
        return;
      }
      lastError := "";
      var t := PostTransfer(url, sensorId, body, None, tls, host.gzip);
      result, answer := Perform(t, response);
    }

    /** The common start of the authenticated helpers, then the transfer `build` gives, as `Authorized` says. */
    method Authorize(response: Json, now: Time, build: string -> Transfer) returns (result: Result<int, JsonError>, answer: Json)
      modifies this, host
      ensures Exchange(State(), answer, result) == Authorized(old(State()), World(), build, response, now, capacity)
      decreases 2
    {
      lastError := "";
      var ok;
      ok, answer := Authenticate(response, now);
      if !ok {
        return Ok(lastCode), answer;
      }
      result, answer := Perform(build(authBearHeader), answer);
    }

    /** `get_request`. */
    method GetRequest(url: string, query: string, sensorId: string, response: Json, now: Time)
      returns (result: Result<int, JsonError>, answer: Json)
      modifies this, host
      ensures Exchange(State(), answer, result)
           == Authorized(old(State()), World(), b => GetTransfer(url, query, sensorId, b, old(ssl)), response, now, capacity)
    {
      var tls := ssl;
      result, answer := Authorize(response, now, b => GetTransfer(url, query, sensorId, b, tls));
    }

    /** `put_request`. */
    method PutRequest(url: string, sensorId: string, body: string, response: Json, now: Time)
      returns (result: Result<int, JsonError>, answer: Json)
      modifies this, host
      ensures Exchange(State(), answer, result)
           == Authorized(old(State()), World(), b => PutTransfer(url, sensorId, body, b, old(ssl)), response, now, capacity)
    {
      var tls := ssl;
      result, answer := Authorize(response, now, b => PutTransfer(url, sensorId, body, b, tls));
    }

    /** `delete_request`. */
    method DeleteRequest(url: string, sensorId: string, response: Json, now: Time)
      returns (result: Result<int, JsonError>, answer: Json)
      modifies this, host
      ensures Exchange(State(), answer, result)
           == Authorized(old(State()), World(), b => DeleteTransfer(url, sensorId, b, old(ssl)), response, now, capacity)
    {
      var tls := ssl;
      result, answer := Authorize(response, now, b => DeleteTransfer(url, sensorId, b, tls));
    }

    /** `pretrain_sensor` without blocking: the state, the record and the result are those `Pretrained` gives. */
    method PretrainSensor(response: PretrainState, sensorId: string, csvdata: string, autotuneConfig: bool, now: Time)
      returns (updated: PretrainState, ok: bool)
      modifies this, host
      ensures (State(), updated, ok) == Pretrained(old(State()), World(), response, sensorId, csvdata, autotuneConfig, now, capacity)
    {
      updated := response;
      var body := host.dump(LegacyPretrainJson(csvdata, autotuneConfig));
      var code, jsonResponse := PostRequest(license.server + PretrainSlug, sensorId, body, true, JNull, now);
      if code.Err? || (code.value != 200 && code.value != 202) {
        return updated, false;
      }
      var decoded := PretrainFromJson(jsonResponse, PretrainState("", ""));
      if decoded.Err? {
        return updated, false;
      }
      return decoded.value, true;
    }

    /**
     * `get_root_cause_by_idlist`: an id list without a '[' and a ']' throws before
     * anything is sent; otherwise the rows are those `RootCauseQueried` gives.
     */
    method GetRootCauseByIdList(rows: seq<seq<int>>, sensorId: string, idlist: string, now: Time)
      returns (r: Result<bool, ArgumentError>, updated: seq<seq<int>>)
      modifies this, host
      ensures !IdListAccepted(idlist) ==> r == Err(MalformedIdList) && updated == rows && State() == old(State())
      ensures IdListAccepted(idlist) ==>
        var (st, rs, ok) := RootCauseQueried(old(State()), World(), "?clusterID=" + idlist, sensorId, rows, now, capacity);
        State() == st && updated == rs && r == Ok(ok)
    {
      if !IdListAccepted(idlist) {
        return Err(MalformedIdList), rows;
      }
      var ok;
      ok, updated := QueryRootCause("?clusterID=" + idlist, sensorId, rows, now);
      r := Ok(ok);
    }

    /**
     * `get_root_cause_by_patternlist`: a pattern list without "[[" and "]]" throws
     * before anything is sent; otherwise the rows are those `RootCauseQueried` gives.
     */
    method GetRootCauseByPatternList(rows: seq<seq<int>>, sensorId: string, patternlist: string, now: Time)
      returns (r: Result<bool, ArgumentError>, updated: seq<seq<int>>)
      modifies this, host
      ensures !PatternListAccepted(patternlist) ==> r == Err(MalformedPatternList) && updated == rows && State() == old(State())
      ensures PatternListAccepted(patternlist) ==>
        var (st, rs, ok) := RootCauseQueried(old(State()), World(), "?pattern=" + patternlist, sensorId, rows, now, capacity);
        State() == st && updated == rs && r == Ok(ok)
    {
      if !PatternListAccepted(patternlist) {
        return Err(MalformedPatternList), rows;
      }
      var ok;
      ok, updated := QueryRootCause("?pattern=" + patternlist, sensorId, rows, now);
      r := Ok(ok);
    }

    /** The request and decoding shared by the two root-cause endpoints. */
    method QueryRootCause(query: string, sensorId: string, rows: seq<seq<int>>, now: Time)
      returns (ok: bool, updated: seq<seq<int>>)
      modifies this, host
      ensures (State(), updated, ok) == RootCauseQueried(old(State()), World(), query, sensorId, rows, now, capacity)
    {
      updated := rows;
      var code, jsonResponse := GetRequest(license.server + RootCauseSlug, query, sensorId, JNull, now);
      if code != Ok(200) {
        return false, updated;
      }
      var decoded := RootCauseFromJson(jsonResponse, []);
      if decoded.Err? {
        return false, updated;
      }
      return true, decoded.value;
    }
  }
}
