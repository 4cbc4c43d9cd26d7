/**
 * The client of the current revision (`amber_sdk` in include/amber_sdk.h and
 * src/amber_sdk.cpp): initialisation, the TLS setters, the OAuth token cache,
 * request assembly in `call_api`, and the two pretrain operations.
 *
 * Every operation is a method on the client object. Each one is specified by a
 * function of the client's state before the call: the profile, the token cache
 * and the transfers made so far. The lemmas at the end state what those
 * functions promise. The clock is the parameter `now`.
 */
module Client {
  import opened Wrappers
  import opened Strings
  import opened OrderedKeys
  import opened Json
  import opened Models
  import opened Codec
  import opened Credentials
  import opened Transport

  /** `std::time_t`: a signed 64-bit count of seconds. */
  type Time = t: int | -0x8000_0000_0000_0000 <= t < 0x8000_0000_0000_0000

  /** `uint64_t`. */
  type Uint64 = x: int | 0 <= x < 0x1_0000_0000_0000_0000

  /** The header naming the SDK on every request. */
  const UserAgent: string := "User-Agent: amber-cpp-sdk"

  /** The header announcing a compressed body. */
  const GzipHeader: string := "Content-Encoding: gzip"

  /** Bodies longer than this many bytes are compressed. */
  const CompressionThreshold: nat := 10000

  /** The start of the bearer-token header of section 2.1 of RFC 6750. */
  const BearerPrefix: string := "Authorization: Bearer "

  /** What can escape an operation: a JSON conversion error, or `std::stoul` failing on the token lifetime. */
  datatype Exception = JsonException(jsonError: JsonError) | StoulException(stoulError: StoulError)

  /** The contents of an `sdk_request`. */
  datatype Request = Request(operation: string, slug: string, body: string, queryParams: string,
                             headers: map<string, string>)

  /** The contents of an `sdk_response`. */
  datatype Response = Response(code: int, headers: map<string, string>, body: Json)

  /** A freshly declared `sdk_response`: no headers, a null body (its code is overwritten before use). */
  const NoResponse := Response(0, map[], JNull)

  /** The token cache: the last grant, its lifetime, whether it is usable, its expiry time and the header built from it. */
  datatype TokenCache = TokenCache(auth: AuthResponse, expiresIn: Uint64, authOk: bool, authTime: Time, bearer: string)

  /** The value-initialised token cache of a new client. */
  const NoToken := TokenCache(EmptyAuth, 0, false, 0, "")

  /** Everything an operation can change: the profile, the token cache and the transfers made. */
  datatype Session = Session(profile: Profile, cache: TokenCache, sent: seq<Transfer>)

  /** The fixed behaviour of the outside world: the replies, `compress_string` and `json::dump`. */
  datatype Oracle = Oracle(respond: seq<Transfer> -> Reply, gzip: string -> string, dump: Json -> string)

  /** The effect of `call_api`: the new state, the request and response records after it, and any exception. */
  datatype CallEffect = CallEffect(session: Session, request: Request, response: Response, thrown: Option<Exception>)

  /** The effect of `authenticate`: the new state, the caller's response record, and its result or exception. */
  datatype AuthEffect = AuthEffect(session: Session, response: Response, result: Result<bool, Exception>)

  /** How an endpoint ends: returning null or an error body, or throwing. */
  datatype Completion = Returned(error: Option<Json>) | Threw(exception: Exception)

  // ----- request assembly ------------------------------------------------------------

  /** The `time_t` that a `uint64_t` converts to: the two's complement reading of its bits. */
  function ToTime(u: Uint64): (t: Time)
    ensures t % Two64 == u
  {
    if u < 0x8000_0000_0000_0000 then u else u - Two64
  }

  /** One request header line, "key:value". */
  function HeaderLine(key: string, value: string): string {
    key + ":" + value
  }

  /** The request headers as lines, in the ascending key order of a `std::map`. */
  function MapLines(headers: map<string, string>): seq<string> {
    var ks := SortedKeys(headers.Keys);
    SortedKeysMembers(headers.Keys);
    seq(|ks|, i requires 0 <= i < |ks| => HeaderLine(ks[i], headers[ks[i]]))
  }

  /** The header lines of a transfer: the bearer token, the user agent, the request headers, and the gzip marker. */
  function HeaderLines(bearer: Option<string>, headers: map<string, string>, gzip: bool): seq<string> {
    (if bearer.Some? then [bearer.value] else []) + [UserAgent] + MapLines(headers)
    + (if gzip then [GzipHeader] else [])
  }

  /** A POST whose body is longer than the threshold is sent compressed. */
  predicate Compresses(r: Request) {
    r.operation == "POST" && |r.body| > CompressionThreshold
  }

  /** The request as `call_api` leaves it: with its body compressed when it `Compresses`. */
  function SentRequest(r: Request, gzip: string -> string): Request {
    if Compresses(r) then r.(body := gzip(r.body)) else r
  }

  /**
   * The body handed to curl: a POST sends its whole body (its size is given), a
   * PUT the body read as a C string (no size is given, so curl stops at the first
   * NUL), any other operation none.
   */
  function PostedBody(r: Request): Option<string> {
    if r.operation == "POST" then Some(r.body)
    else if r.operation == "PUT" then Some(CString(r.body))
    else None
  }

  /** The TLS options: the certificate and CA bundle are set only when verifying and non-empty. */
  function TlsOptions(ssl: Ssl): Tls {
    Tls(ssl.verify, if ssl.verify && ssl.cert != "" then Some(ssl.cert) else None,
        if ssl.verify && ssl.cainfo != "" then Some(ssl.cainfo) else None)
  }

  /** The URL of a request to a server: the server, '/', the slug and the query string. */
  function RequestUrl(server: string, r: Request): string {
    server + "/" + r.slug + r.queryParams
  }

  /** The transfer `call_api` makes for request `r` to `server`. */
  function Prepare(server: string, bearer: Option<string>, r: Request, ssl: Ssl, gzip: string -> string): Transfer {
    Transfer(r.operation, RequestUrl(server, r), HeaderLines(bearer, r.headers, Compresses(r)),
             PostedBody(SentRequest(r, gzip)), TlsOptions(ssl))
  }

  /** The response record after a reply: filled in from a completed exchange, untouched after a failed one. */
  function Received(reply: Reply, res: Response): Response {
    match reply
    case Completed(code, block, body) => Response(code, ParsedHeaders(block), body)
    case Failed(_, _) => res
  }

  /** Make the transfer for `req` and record its reply. */
  function Transmit(s: Session, o: Oracle, req: Request, res: Response, server: string, bearer: Option<string>): CallEffect {
    var sent := s.sent + [Prepare(server, bearer, req, s.profile.ssl, o.gzip)];
    CallEffect(s.(sent := sent), SentRequest(req, o.gzip), Received(o.respond(sent), res), None)
  }

  // ----- the token cache -------------------------------------------------------------

  /** The cached token is still good: `now + expires_in - 100 < auth_time`, all in `uint64_t` arithmetic. */
  predicate TokenFresh(c: TokenCache, now: Time) {
    c.authOk && (now + c.expiresIn - 100) % Two64 < c.authTime % Two64
  }

  /** The OAuth request: the credentials as JSON, posted to "oauth2". */
  function AuthRequest(l: LicenseEntry, dump: Json -> string): Request {
    Request("POST", "oauth2", dump(AuthRequestJson(l.username, l.password)), "", map["content-type" := "application/json"])
  }

  /**
   * Storing the reply to the OAuth request: any code but 200 leaves the token
   * unusable; otherwise the grant is decoded, marked usable, and its lifetime read
   * with `std::stoul`, after which the expiry time and the bearer header are set.
   */
  function Issue(c: TokenCache, res: Response, now: Time): (TokenCache, Result<bool, Exception>) {
    if res.code != 200 then (c.(authOk := false), Ok(false))
    else
      match GeneratedAuthFromJson(res.body)
      case Err(e) => (c, Err(JsonException(e)))
      case Ok(a) => Grant(c, a, now)
  }

  /** Storing a decoded grant: it is marked usable before its lifetime is read, and the rest is set once that succeeds. */
  function Grant(c: TokenCache, a: AuthResponse, now: Time): (TokenCache, Result<bool, Exception>) {
    match Stoul(a.expiresIn)
    case Err(e) => (c.(auth := a, authOk := true), Err(StoulException(e)))
    case Ok(e) => (TokenCache(a, e, true, ToTime((now + e) % Two64), BearerPrefix + a.idToken), Ok(true))
  }

  /** `authenticate`: reuse a fresh token, reporting code 200, or request a new one. */
  function AuthCall(s: Session, o: Oracle, res: Response, now: Time): AuthEffect
    decreases 1
  {
    if TokenFresh(s.cache, now) then AuthEffect(s, res.(code := 200), Ok(true))
    else
      var inner := ApiCall(s.(cache := s.cache.(authOk := false)), o, AuthRequest(s.profile.license, o.dump),
                           NoResponse, true, now);
      var (c, r) := Issue(inner.session.cache, inner.response, now);
      AuthEffect(inner.session.(cache := c), res, r)
  }

  /**
   * `call_api`: the OAuth request goes to the OAuth server without a token; any
   * other request first authenticates, stops there when that fails, and goes to
   * the server with the bearer header.
   */
  function ApiCall(s: Session, o: Oracle, req: Request, res: Response, isAuth: bool, now: Time): CallEffect
    decreases if isAuth then 0 else 2
  {
    var res0 := res.(code := 0);
    if isAuth then Transmit(s, o, req, res0, s.profile.license.oauthServer, None)
    else
      var a := AuthCall(s, o, res0, now);
      if a.result.Err? then CallEffect(a.session, req, a.response, Some(a.result.error))
      else if !a.result.value then CallEffect(a.session, req, a.response, None)
      else Transmit(a.session, o, req, a.response, s.profile.license.server, Some(a.session.cache.bearer))
  }

  /** `call_api` overwrites the response code before reading it, so the code it starts with does not matter. */
  lemma ApiCallIgnoresCode(s: Session, o: Oracle, req: Request, res: Response, res': Response, isAuth: bool, now: Time)
    requires res.(code := 0) == res'.(code := 0)
    ensures ApiCall(s, o, req, res, isAuth, now) == ApiCall(s, o, req, res', isAuth, now)
  {
  }

  /** `authenticate` never changes the profile. */
  lemma {:induction false} AuthCallKeepsProfile(s: Session, o: Oracle, res: Response, now: Time)
    ensures AuthCall(s, o, res, now).session.profile == s.profile
    decreases 1
  {
    if !TokenFresh(s.cache, now) {
      ApiCallKeepsProfile(s.(cache := s.cache.(authOk := false)), o, AuthRequest(s.profile.license, o.dump),
                          NoResponse, true, now);
    }
  }

  /** `call_api` never changes the profile. */
  lemma {:induction false} ApiCallKeepsProfile(s: Session, o: Oracle, req: Request, res: Response, isAuth: bool, now: Time)
    ensures ApiCall(s, o, req, res, isAuth, now).session.profile == s.profile
    decreases if isAuth then 0 else 2
  {
    if !isAuth {
      AuthCallKeepsProfile(s, o, res.(code := 0), now);
    }
  }

  /** A stale token: `authenticate` makes the OAuth call with the token marked unusable, then stores the reply. */
  lemma AuthCallStale(s: Session, o: Oracle, res: Response, now: Time, inner: CallEffect)
    requires !TokenFresh(s.cache, now)
    requires inner == ApiCall(s.(cache := s.cache.(authOk := false)), o, AuthRequest(s.profile.license, o.dump),
                              NoResponse, true, now)
    ensures AuthCall(s, o, res, now)
         == AuthEffect(inner.session.(cache := Issue(inner.session.cache, inner.response, now).0), res,
                       Issue(inner.session.cache, inner.response, now).1)
  {
  }

  // ----- chunked pretraining ---------------------------------------------------------

  /** One sample as the server receives it: the four bytes of a `float`. */
  type Sample = s: seq<bv8> | |s| == 4 witness [0, 0, 0, 0]

  /** Samples per chunk. */
  const ChunkSize: nat := 1000000

  /** The number of chunks for `n` samples: `n / 1000000`, plus one for a remainder. */
  function ChunkCount(n: nat): nat {
    n / ChunkSize + (if n % ChunkSize != 0 then 1 else 0)
  }

  /** Where chunk `i` ends: `(i + 1) * 1000000`, capped at `n`. */
  function ChunkEnd(i: nat, n: nat): nat {
    if (i + 1) * ChunkSize > n then n else (i + 1) * ChunkSize
  }

  /** The bytes of a run of samples, as `chunk.data()` lays them out. */
  function Flatten(samples: seq<Sample>): seq<bv8>
    decreases |samples|
  {
    if samples == [] then [] else Flatten(samples[..|samples| - 1]) + samples[|samples| - 1]
  }

  /** The "amberchunk" header value: "<chunk number>:<chunk count>", counting from 1. */
  function ChunkLabel(i: nat, count: nat): string {
    NatToString(i + 1) + ":" + NatToString(count)
  }

  /** `PostPretrainRequest` as JSON: the data, its format and the autotune flag. */
  function PretrainRequestJson(data: string, format: string, autotuneConfig: bool): Json {
    JObject(map["data" := JString(data), "format" := JString(format), "autotuneConfig" := JBool(autotuneConfig)])
  }

  /** The arguments of a chunked pretrain call. */
  datatype XlCall = XlCall(sensorId: string, samples: seq<Sample>, autotuneConfig: bool)

  /** The headers of chunk `i`; the transaction id is sent once one has been received. */
  function ChunkHeaders(c: XlCall, i: nat, transaction: string): map<string, string> {
    var h := map[]["content-type" := "application/json"]["sensorid" := c.sensorId]
               ["amberchunk" := ChunkLabel(i, ChunkCount(|c.samples|))];
    if transaction != "" then h["ambertransaction" := transaction] else h
  }

  /** The request for chunk `i`: its samples, base64-encoded as "packed-float" data. */
  function ChunkRequest(c: XlCall, dump: Json -> string, i: nat, transaction: string): Request
    requires i < ChunkCount(|c.samples|)
  {
    var chunk := c.samples[i * ChunkSize..ChunkEnd(i, |c.samples|)];
    Request("POST", "pretrain", dump(PretrainRequestJson(Base64(Flatten(chunk)), "packed-float", c.autotuneConfig)), "",
            ChunkHeaders(c, i, transaction))
  }

  /** `sdk_res.headers["ambertransaction"]`: the value, or "" when the key is absent. */
  function HeaderValue(headers: map<string, string>, key: string): string {
    if key in headers then headers[key] else ""
  }

  /** A run of the chunk loop: the requests made, the responses received, and how it ended. */
  datatype XlTrace = XlTrace(session: Session, requests: seq<Request>, responses: seq<Response>,
                             response: PretrainProgress, outcome: Completion)

  /** The part of a trace the caller observes. */
  function Observed(t: XlTrace): (Session, PretrainProgress, Completion) {
    (t.session, t.response, t.outcome)
  }

  /**
   * The chunk loop from chunk `i`, with the transaction id received so far. A 202
   * stores the transaction id and the decoded progress and goes on; a 200 (chunks
   * are never empty) or any other code ends the call with the error body.
   */
  function XlFrom(s: Session, o: Oracle, c: XlCall, i: nat, transaction: string, response: PretrainProgress,
                  now: Time): XlTrace
    requires i <= ChunkCount(|c.samples|)
    decreases ChunkCount(|c.samples|) - i, 1
  {
    if i == ChunkCount(|c.samples|) then XlTrace(s, [], [], response, Returned(None))
    else
      var req := ChunkRequest(c, o.dump, i, transaction);
      XlAfter(o, c, i, req, ApiCall(s, o, req, NoResponse, false, now), response, now)
  }

  /** The chunk loop once request `req` for chunk `i` has had its effect `e`. */
  function XlAfter(o: Oracle, c: XlCall, i: nat, req: Request, e: CallEffect, response: PretrainProgress,
                   now: Time): XlTrace
    requires i < ChunkCount(|c.samples|)
    decreases ChunkCount(|c.samples|) - i, 0
  {
    if e.thrown.Some? then XlTrace(e.session, [req], [e.response], response, Threw(e.thrown.value))
    else if e.response.code != 202 then XlTrace(e.session, [req], [e.response], response, Returned(Some(e.response.body)))
    else
      match GeneratedProgressFromJson(e.response.body)
      case Err(err) => XlTrace(e.session, [req], [e.response], response, Threw(JsonException(err)))
      case Ok(p) =>
        var rest := XlFrom(e.session, o, c, i + 1, HeaderValue(e.response.headers, "ambertransaction"), p, now);
        rest.(requests := [req] + rest.requests, responses := [e.response] + rest.responses)
  }

  /** The request `pretrain_sensor` makes: the CSV text as "csv" data. */
  function CsvRequest(sensorId: string, csvdata: string, autotuneConfig: bool, dump: Json -> string): Request {
    Request("POST", "pretrain", dump(PretrainRequestJson(csvdata, "csv", autotuneConfig)), "",
            map[]["content-type" := "application/json"]["sensorid" := sensorId])
  }

  /**
   * `pretrain_sensor` without blocking: a 200 decodes the progress, a 202 leaves
   * the caller's record untouched, anything else returns the error body.
   */
  function PretrainCall(s: Session, o: Oracle, sensorId: string, csvdata: string, autotuneConfig: bool,
                        response: PretrainProgress, now: Time): (Session, PretrainProgress, Completion)
  {
    var e := ApiCall(s, o, CsvRequest(sensorId, csvdata, autotuneConfig, o.dump), NoResponse, false, now);
    if e.thrown.Some? then (e.session, response, Threw(e.thrown.value))
    else if e.response.code == 200 then
      match GeneratedProgressFromJson(e.response.body)
      case Err(err) => (e.session, response, Threw(JsonException(err)))
      case Ok(p) => (e.session, p, Returned(None))
    else if e.response.code == 202 then (e.session, response, Returned(None))
    else (e.session, response, Returned(Some(e.response.body)))
  }

  // ----- the records and the client ----------------------------------------------------

  /** `sdk_request`. */
  class SdkRequest {
    var operation: string
    var slug: string
    var body: string
    var queryParams: string
    var headers: map<string, string>

    /** `sdk_request{operation, slug}`: the other members empty. */
    constructor (operation: string, slug: string)
      ensures Value() == Request(operation, slug, "", "", map[])
    {
      this.operation := operation;
      this.slug := slug;
      body := "";
      queryParams := "";
      headers := map[];
    }

    function Value(): Request
      reads this
    {
      Request(operation, slug, body, queryParams, headers)
    }
  }

  /** `sdk_response`. */
  class SdkResponse {
    var code: int
    var headers: map<string, string>
    var body: Json

    /** A declared `sdk_response`: no headers and a null body; the code is indeterminate. */
    constructor ()
      ensures headers == map[] && body == JNull
    {
      headers := map[];
      body := JNull;
    }

    function Value(): Response
      reads this
    {
      Response(code, headers, body)
    }
  }

  /** `amber_sdk`. */
  class AmberSdk {
    var license: LicenseEntry
    var licenseId: string
    var licenseFile: string
    var ssl: Ssl
    var auth: AuthResponse
    var expiresIn: Uint64
    var authOk: bool
    var authTime: Time
    var authBearHeader: string
    /** The network, `compress_string` and `json::dump`. */
    const host: Host

    function Profiled(): Profile
      reads this
    {
      Profile(licenseId, licenseFile, license, ssl)
    }

    function Cache(): TokenCache
      reads this
    {
      TokenCache(auth, expiresIn, authOk, authTime, authBearHeader)
    }

    function State(): Session
      reads this, host
    {
      Session(Profiled(), Cache(), host.sent)
    }

    function World(): Oracle {
      Oracle(host.respond, host.gzip, host.dump)
    }

    /** The members as they are before `amber_init` runs: empty strings, zeros and false. */
    constructor (host: Host)
      ensures Profiled() == EmptyProfile && Cache() == NoToken && this.host == host
    {
      license := EmptyLicense;
      licenseId := "";
      licenseFile := "";
      ssl := NoSsl;
      auth := EmptyAuth;
      expiresIn := 0;
      authOk := false;
      authTime := 0;
      authBearHeader := "";
      this.host := host;
    }

    /** The five-argument constructor: a client initialised by `amber_init`, or the exception it throws. */
    static method Create(args: InitArgs, env: Env, expand: string -> string, read: string -> LicenseFile, host: Host)
      returns (r: Result<AmberSdk, InitError>)
      ensures r.Ok? ==> fresh(r.value) && r.value.host == host && r.value.Cache() == NoToken
      ensures r.Ok? ==> r.value.Profiled() == Resolve(Current, args, env, expand, read, EmptyProfile).0
      ensures r.Ok? <==> Resolve(Current, args, env, expand, read, EmptyProfile).1 == Pass
      ensures r.Err? ==> Resolve(Current, args, env, expand, read, EmptyProfile).1 == Fail(r.error)
    {
      var sdk := new AmberSdk(host);
      var outcome := sdk.AmberInit(args, env, expand, read);
      if outcome.Fail? {
        return Err(outcome.error);
      }
      return Ok(sdk);
    }

    /** The no-argument constructor: profile "default" of "~/.Amber.license", verifying, no certificate or CA bundle. */
    static method CreateDefault(env: Env, expand: string -> string, read: string -> LicenseFile, host: Host)
      returns (r: Result<AmberSdk, InitError>)
      ensures var args := InitArgs("default", DefaultLicenseFile, true, "", "");
        && (r.Ok? ==> fresh(r.value) && r.value.Profiled() == Resolve(Current, args, env, expand, read, EmptyProfile).0)
        && (r.Ok? <==> Resolve(Current, args, env, expand, read, EmptyProfile).1 == Pass)
    {
      r := Create(InitArgs("default", DefaultLicenseFile, true, "", ""), env, expand, read, host);
    }

    /** The two-argument constructor: the given profile and file, verifying, no certificate or CA bundle. */
    static method CreateFor(licenseId: string, licenseFile: string, env: Env, expand: string -> string,
                            read: string -> LicenseFile, host: Host)
      returns (r: Result<AmberSdk, InitError>)
      ensures var args := InitArgs(licenseId, licenseFile, true, "", "");
        && (r.Ok? ==> fresh(r.value) && r.value.Profiled() == Resolve(Current, args, env, expand, read, EmptyProfile).0)
        && (r.Ok? <==> Resolve(Current, args, env, expand, read, EmptyProfile).1 == Pass)
    {
      r := Create(InitArgs(licenseId, licenseFile, true, "", ""), env, expand, read, host);
    }

    /**
     * `amber_init`: reset the token state, then resolve the profile and TLS options
     * field by field; the outcome and the fields written are those `Resolve` gives.
     */
    method AmberInit(args: InitArgs, env: Env, expand: string -> string, read: string -> LicenseFile)
      returns (outcome: Outcome<InitError>)
      modifies this
      ensures (Profiled(), outcome) == Resolve(Current, args, env, expand, read, old(Profiled()))
      ensures authTime == 0 && expiresIn == 0 && !authOk
      ensures auth == old(auth) && authBearHeader == old(authBearHeader)
    {
      ghost var prior := Profiled();
      authTime := 0;
      expiresIn := 0;
      authOk := false;
      licenseFile := Getenv(env, "AMBER_LICENSE_FILE", args.licenseFile);
      licenseId := Getenv(env, "AMBER_LICENSE_ID", args.licenseId);
      var loaded: Result<LicenseEntry, InitError> := Ok(license);
      if licenseFile != "" {
        licenseFile := expand(licenseFile);
        loaded := LoadLicense(Current, args.licenseFile, licenseFile, licenseId, read(licenseFile), license);
        if loaded.Err? {
          ResolveStages(Current, args, env, expand, read, prior, loaded);
          return Fail(loaded.error);
        }
        license := loaded.value;
      }
      ResolveStages(Current, args, env, expand, read, prior, loaded);
      assert licenseId == EffectiveId(env, args) && licenseFile == StoredPath(env, args, expand);
      ApplyEnvironment(env, args);
      if license.username == "" {
        outcome := Fail(NotSpecified("username"));
      } else if license.password == "" {
        outcome := Fail(NotSpecified("password"));
      } else if license.server == "" {
        outcome := Fail(NotSpecified("server"));
      } else {
        outcome := Pass;
      }
    }

    /**
     * The environment block of `amber_init`: each set `AMBER_*` variable replaces
     * its own credential, an empty OAuth server becomes the server, and the TLS
     * options come from the arguments and `AMBER_SSL_CERT`/`AMBER_SSL_VERIFY`.
     */
    method ApplyEnvironment(env: Env, args: InitArgs)
      modifies this
      ensures license == ApplyOverrides(env, old(license)) && ssl == ResolveSsl(env, args)
      ensures licenseId == old(licenseId) && licenseFile == old(licenseFile) && Cache() == old(Cache())
    {
      license := license.(username := Getenv(env, "AMBER_USERNAME", license.username));
      license := license.(password := Getenv(env, "AMBER_PASSWORD", license.password));
      license := license.(server := Getenv(env, "AMBER_SERVER", license.server));
      license := license.(oauthServer := Getenv(env, "AMBER_OAUTH_SERVER", license.oauthServer));
      if |license.oauthServer| == 0 {
        license := license.(oauthServer := license.server);
      }
      SetCert(Getenv(env, "AMBER_SSL_CERT", args.cert));
      VerifyCertificate(args.verifyCert);
      SetCainfo(args.cainfo);
      if "AMBER_SSL_VERIFY" in env {
        VerifyCertificate(true);
        if EqualsIgnoreCase("false", env["AMBER_SSL_VERIFY"]) {
          VerifyCertificate(false);
          SetCainfo("");
        } else if !EqualsIgnoreCase("true", env["AMBER_SSL_VERIFY"]) {
          SetCainfo(env["AMBER_SSL_VERIFY"]);
        }
      }
    }

    /** `verify_certificate`: sets only the verification flag. */
    method VerifyCertificate(verifyCert: bool)
      modifies this
      ensures ssl == old(ssl).(verify := verifyCert)
      ensures license == old(license) && licenseId == old(licenseId) && licenseFile == old(licenseFile)
      ensures auth == old(auth) && expiresIn == old(expiresIn) && authOk == old(authOk) && authTime == old(authTime)
      ensures authBearHeader == old(authBearHeader)
    {
      ssl := ssl.(verify := verifyCert);
    }

    /** `set_cert`: sets only the client certificate. */
    method SetCert(cert: string)
      modifies this
      ensures ssl == old(ssl).(cert := cert)
      ensures license == old(license) && licenseId == old(licenseId) && licenseFile == old(licenseFile)
      ensures auth == old(auth) && expiresIn == old(expiresIn) && authOk == old(authOk) && authTime == old(authTime)
      ensures authBearHeader == old(authBearHeader)
    {
      ssl := ssl.(cert := cert);
    }

    /** `set_cainfo`: sets only the CA bundle. */
    method SetCainfo(cainfo: string)
      modifies this
      ensures ssl == old(ssl).(cainfo := cainfo)
      ensures license == old(license) && licenseId == old(licenseId) && licenseFile == old(licenseFile)
      ensures auth == old(auth) && expiresIn == old(expiresIn) && authOk == old(authOk) && authTime == old(authTime)
      ensures authBearHeader == old(authBearHeader)
    {
      ssl := ssl.(cainfo := cainfo);
    }

    /** `authenticate`: the state, the caller's response and the result are those `AuthCall` gives. */
    method Authenticate(res: SdkResponse, now: Time) returns (r: Result<bool, Exception>)
      modifies this, host, res
      ensures AuthEffect(State(), res.Value(), r) == AuthCall(old(State()), World(), old(res.Value()), now)
      decreases 1
    {
      ghost var s0 := State();
      if authOk && (now + expiresIn - 100) % Two64 < authTime % Two64 {
        res.code := 200;
        return Ok(true);
      }
      assert !TokenFresh(s0.cache, now);
      authOk := false;
      ghost var s1 := State();
      assert s1 == s0.(cache := s0.cache.(authOk := false));
      var sdkReq := OAuthRequest();
      var sdkRes := new SdkResponse();
      ghost var inner := ApiCall(s1, World(), sdkReq.Value(), NoResponse, true, now);
      ApiCallIgnoresCode(s1, World(), sdkReq.Value(), sdkRes.Value(), NoResponse, true, now);
      assert State() == s1;
      var thrown := CallApi(sdkReq, sdkRes, true, now);
      assert State() == inner.session && sdkRes.Value() == inner.response;
      AuthCallStale(s0, World(), old(res.Value()), now, inner);
      var reply := sdkRes.Value();
      assert Cache() == inner.session.cache;
      r := StoreGrant(reply, now);
      assert (Cache(), r) == Issue(inner.session.cache, inner.response, now);
      assert Profiled() == inner.session.profile;
    }

    /** The OAuth request of `authenticate`: the credentials as JSON, posted to "oauth2". */
    method OAuthRequest() returns (req: SdkRequest)
      ensures fresh(req) && req.Value() == AuthRequest(license, host.dump)
    {
      req := new SdkRequest("POST", "oauth2");
      req.body := host.dump(AuthRequestJson(license.username, license.password));
      req.headers := req.headers["content-type" := "application/json"];
    }

    /**
     * The second half of `authenticate`: store the reply to the OAuth request in
     * the token cache, leaving the profile alone.
     */
    method StoreGrant(reply: Response, now: Time) returns (r: Result<bool, Exception>)
      modifies this
      ensures (Cache(), r) == Issue(old(Cache()), reply, now)
      ensures Profiled() == old(Profiled())
    {
      if reply.code != 200 {
        authOk := false;
        return Ok(false);
      }
      var decoded := GeneratedAuthFromJson(reply.body);
      if decoded.Err? {
        return Err(JsonException(decoded.error));
      }
      r := StoreLifetime(decoded.value, now);
    }

    /** The end of `authenticate`: keep the grant, mark it usable, then read its lifetime and build the bearer header. */
    method StoreLifetime(grant: AuthResponse, now: Time) returns (r: Result<bool, Exception>)
      modifies this
      ensures (Cache(), r) == Grant(old(Cache()), grant, now)
      ensures Profiled() == old(Profiled())
    {
      auth := grant;
      authOk := true;
      var lifetime := Stoul(grant.expiresIn);
      if lifetime.Err? {
        return Err(StoulException(lifetime.error));
      }
      expiresIn := lifetime.value;
      authTime := ToTime((now + lifetime.value) % Two64);
      authBearHeader := BearerPrefix + grant.idToken;
      r := Ok(true);
    }

    /** `call_api`: the state, the request and response records and any exception are those `ApiCall` gives. */
    method CallApi(req: SdkRequest, res: SdkResponse, isAuth: bool, now: Time) returns (thrown: Option<Exception>)
      modifies this, host, req, res
      ensures CallEffect(State(), req.Value(), res.Value(), thrown)
           == ApiCall(old(State()), World(), old(req.Value()), old(res.Value()), isAuth, now)
      decreases if isAuth then 0 else 2
    {
      ghost var s0 := State();
      res.code := 0;
      if isAuth {
        Send(req, res, license.oauthServer, None);
        return None;
      }
      var authed := Authenticate(res, now);
      AuthCallKeepsProfile(s0, World(), old(res.Value()).(code := 0), now);
      if authed.Err? {
        return Some(authed.error);
      }
      if !authed.value {
        return None;
      }
      Send(req, res, license.server, Some(authBearHeader));
      return None;
    }

    /**
     * The transfer half of `call_api`: the bearer header (when there is one), the
     * user agent and the request headers in key order; the body, compressed with a
     * marker header when it is a long POST; the TLS options; then the reply.
     */
    method Send(req: SdkRequest, res: SdkResponse, server: string, bearer: Option<string>)
      modifies host, req, res
      ensures host.sent == old(host.sent) + [Prepare(server, bearer, old(req.Value()), ssl, World().gzip)]
      ensures req.Value() == SentRequest(old(req.Value()), World().gzip)
      ensures res.Value() == Received(World().respond(host.sent), old(res.Value()))
    {
      ghost var r0 := req.Value();
      var url := server + "/" + req.slug + req.queryParams;
      var hs := HeaderList(bearer, req.headers);
      var body, zipped := PostBody(req);
      if zipped {
        hs := hs + [GzipHeader];
      }
      var tls := TlsSettings();
      assert hs == HeaderLines(bearer, r0.headers, Compresses(r0));
      var reply := host.Perform(Transfer(req.operation, url, hs, body, tls));
      if reply.Completed? {
        res.code := reply.code;
        res.headers := ParseHeaders(reply.headerBlock);
        res.body := reply.body;
      }
    }

    /**
     * The body `call_api` hands to curl: a POST longer than the threshold is
     * compressed in place first (and `zipped` says so); POST sends the body, PUT
     * the body up to its first NUL, any other operation none.
     */
    method PostBody(req: SdkRequest) returns (body: Option<string>, zipped: bool)
      modifies req
      ensures req.Value() == SentRequest(old(req.Value()), host.gzip)
      ensures body == PostedBody(req.Value()) && zipped == Compresses(old(req.Value()))
    {
      body := None;
      zipped := false;
      if req.operation == "POST" {
        if |req.body| > CompressionThreshold {
          req.body := host.gzip(req.body);
          zipped := true;
        }
        body := Some(req.body);
      } else if req.operation == "PUT" {
        body := Some(CString(req.body));
      }
    }

    /** The TLS options `call_api` sets: the certificate and CA bundle only when verifying and non-empty. */
    method TlsSettings() returns (tls: Tls)
      ensures tls == TlsOptions(ssl)
    {
      var cert: Option<string> := None;
      var cainfo: Option<string> := None;
      if ssl.verify {
        if ssl.cert != "" {
          cert := Some(ssl.cert);
        }
        if ssl.cainfo != "" {
          cainfo := Some(ssl.cainfo);
        }
      }
      tls := Tls(ssl.verify, cert, cainfo);
    }

    /** The header list of `call_api` before any gzip marker: the bearer header, the user agent, then the request headers in key order. */
    static method HeaderList(bearer: Option<string>, headers: map<string, string>) returns (hs: seq<string>)
      ensures hs == HeaderLines(bearer, headers, false)
    {
      hs := [];
      if bearer.Some? {
        hs := hs + [bearer.value];
      }
      hs := hs + [UserAgent];
      ghost var lead := hs;
      var keys := SortedKeys(headers.Keys);
      SortedKeysMembers(headers.Keys);
      for k := 0 to |keys|
        invariant hs == lead + MapLines(headers)[..k]
      {
        hs := hs + [HeaderLine(keys[k], headers[keys[k]])];
      }
      assert MapLines(headers)[..|keys|] == MapLines(headers);
    }

    /**
     * `pretrain_sensor_xl` without blocking: send the samples in chunks of a
     * million, threading the transaction id, until every chunk is accepted or a
     * reply ends the call. The state, the caller's record and the result are those
     * `XlFrom` gives from the first chunk.
     */
    method PretrainSensorXl(prior: PretrainProgress, sensorId: string, samples: seq<Sample>, autotuneConfig: bool,
                            now: Time)
      returns (response: PretrainProgress, outcome: Completion)
      modifies this, host
      ensures (State(), response, outcome)
           == Observed(XlFrom(old(State()), World(), XlCall(sensorId, samples, autotuneConfig), 0, "", prior, now))
    {
      ghost var call := XlCall(sensorId, samples, autotuneConfig);
      response := prior;
      var chunkMax := |samples| / ChunkSize;
      if |samples| % ChunkSize != 0 {
        chunkMax := chunkMax + 1;
      }
      var amberTransaction := "";
      var chunkIdx := 0;
      while chunkIdx < chunkMax
        invariant chunkMax == ChunkCount(|samples|) && chunkIdx <= chunkMax
        invariant Observed(XlFrom(old(State()), World(), call, 0, "", prior, now))
               == Observed(XlFrom(State(), World(), call, chunkIdx, amberTransaction, response, now))
        decreases chunkMax - chunkIdx
      {
        ghost var s := State();
        var sdkReq := ChunkPretrainRequest(sensorId, samples, autotuneConfig, chunkIdx, chunkMax, amberTransaction);
        var sdkRes := new SdkResponse();
        ghost var e := ApiCall(s, World(), sdkReq.Value(), NoResponse, false, now);
        ApiCallIgnoresCode(s, World(), sdkReq.Value(), sdkRes.Value(), NoResponse, false, now);
        var thrown := CallApi(sdkReq, sdkRes, false, now);
        assert State() == e.session && sdkRes.Value() == e.response && thrown == e.thrown;
        if thrown.Some? {
          return response, Threw(thrown.value);
        }
        if sdkRes.code == 200 {
          // chunks are never empty, so the source's `start != end` test always holds here
          return response, Returned(Some(sdkRes.body));
        } else if sdkRes.code == 202 {
          amberTransaction := HeaderValue(sdkRes.headers, "ambertransaction");
          var decoded := GeneratedProgressFromJson(sdkRes.body);
          if decoded.Err? {
            return response, Threw(JsonException(decoded.error));
          }
          response := decoded.value;
        } else {
          return response, Returned(Some(sdkRes.body));
        }
        chunkIdx := chunkIdx + 1;
      }
      outcome := Returned(None);
    }

    /**
     * The request for chunk `chunkIdx` of `pretrain_sensor_xl`: its samples as
     * base64 "packed-float" data, the sensor id, the "amberchunk" label and, once
     * one has been received, the transaction id.
     */
    method ChunkPretrainRequest(sensorId: string, samples: seq<Sample>, autotuneConfig: bool, chunkIdx: nat,
                                chunkMax: nat, amberTransaction: string)
      returns (req: SdkRequest)
      requires chunkMax == ChunkCount(|samples|) && chunkIdx < chunkMax
      ensures fresh(req)
      ensures req.Value() == ChunkRequest(XlCall(sensorId, samples, autotuneConfig), host.dump, chunkIdx, amberTransaction)
    {
      var start := chunkIdx * ChunkSize;
      var end := (chunkIdx + 1) * ChunkSize;
      if end > |samples| {
        end := |samples|;
      }
      var encoded := Base64Encode(Flatten(samples[start..end]));
      req := new SdkRequest("POST", "pretrain");
      req.body := host.dump(PretrainRequestJson(encoded, "packed-float", autotuneConfig));
      req.headers := req.headers["content-type" := "application/json"];
      req.headers := req.headers["sensorid" := sensorId];
      req.headers := req.headers["amberchunk" := NatToString(chunkIdx + 1) + ":" + NatToString(chunkMax)];
      if amberTransaction != "" {
        req.headers := req.headers["ambertransaction" := amberTransaction];
      }
    }

    /** `pretrain_sensor` without blocking: the state, the caller's record and the result are those `PretrainCall` gives. */
    method PretrainSensor(prior: PretrainProgress, sensorId: string, csvdata: string, autotuneConfig: bool, now: Time)
      returns (response: PretrainProgress, outcome: Completion)
      modifies this, host
      ensures (State(), response, outcome)
           == PretrainCall(old(State()), World(), sensorId, csvdata, autotuneConfig, prior, now)
    {
      ghost var s := State();
      response := prior;
      var sdkReq := CsvPretrainRequest(sensorId, csvdata, autotuneConfig);
      var sdkRes := new SdkResponse();
      ghost var e := ApiCall(s, World(), sdkReq.Value(), NoResponse, false, now);
      ApiCallIgnoresCode(s, World(), sdkReq.Value(), sdkRes.Value(), NoResponse, false, now);
      var thrown := CallApi(sdkReq, sdkRes, false, now);
      assert State() == e.session && sdkRes.Value() == e.response && thrown == e.thrown;
      if thrown.Some? {
        return response, Threw(thrown.value);
      }
      if sdkRes.code == 200 {
        var decoded := GeneratedProgressFromJson(sdkRes.body);
        if decoded.Err? {
          return response, Threw(JsonException(decoded.error));
        }
        response := decoded.value;
      } else if sdkRes.code != 202 {
        return response, Returned(Some(sdkRes.body));
      }
      outcome := Returned(None);
    }

    /** The request of `pretrain_sensor`: the CSV text as "csv" data, with the sensor id. */
    method CsvPretrainRequest(sensorId: string, csvdata: string, autotuneConfig: bool) returns (req: SdkRequest)
      ensures fresh(req) && req.Value() == CsvRequest(sensorId, csvdata, autotuneConfig, host.dump)
    {
      req := new SdkRequest("POST", "pretrain");
      req.body := host.dump(PretrainRequestJson(csvdata, "csv", autotuneConfig));
      req.headers := req.headers["content-type" := "application/json"];
      req.headers := req.headers["sensorid" := sensorId];
    }
  }
}
