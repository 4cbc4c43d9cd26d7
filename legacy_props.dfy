/**
 * What the legacy client promises, stated over the functions that specify its
 * methods: when `authenticate` talks to the OAuth server, what a failed or an
 * undecodable grant leaves behind, how a reply is read into `last_code` and
 * `last_error`, and which header lines each helper sends.
 */
module LegacyProperties {
  import opened Wrappers
  import opened Strings
  import opened Json
  import opened Models
  import opened Credentials
  import opened Transport
  import opened Client
  import opened LegacyClient

  /** The OAuth transfer `authenticate` makes from state `st`. */
  function OAuthPost(st: LegacyState, o: Oracle): Transfer {
    var l := st.profile.license;
    PostTransfer(l.oauthServer + OAuthSlug, "", OAuthBody(l, o.dump), None, st.profile.ssl, o.gzip)
  }

  /**
   * `authenticate` sends a request exactly when the token is not fresh: a fresh
   * token succeeds with nothing changed, and a stale one sends one unauthenticated
   * POST of the credentials to the OAuth server and keeps the profile.
   */
  lemma LegacyAuthRequestsExactlyWhenStale(st: LegacyState, o: Oracle, response: Json, now: Time, capacity: Capacity)
    ensures var a := Authenticated(st, o, response, now, capacity);
      && (a.state.sent == st.sent <==> TokenFresh(st.cache, now))
      && (TokenFresh(st.cache, now) ==> a == AuthOutcome(st, response, true))
      && (!TokenFresh(st.cache, now) ==> a.state.sent == st.sent + [OAuthPost(st, o)] && a.state.profile == st.profile)
  {
    if !TokenFresh(st.cache, now) {
      var l := st.profile.license;
      var s0 := st.(cache := st.cache.(authOk := false));
      var e := Posted(s0, o, l.oauthServer + OAuthSlug, "", OAuthBody(l, o.dump), false, response, now, capacity);
      assert e == Performed(Reset(s0), o, OAuthPost(st, o), response, capacity);
      ReplyHandling(Reset(s0), o, OAuthPost(st, o), response, capacity);
      var a := Authenticated(st, o, response, now, capacity);
      assert a.state.sent == e.state.sent && a.state.profile == e.state.profile;
    }
  }

  /** A stale token whose OAuth request does not return 200 stays unusable, and `authenticate` fails. */
  lemma RejectedGrantLeavesTokenUnusable(st: LegacyState, o: Oracle, response: Json, now: Time, capacity: Capacity)
    requires !TokenFresh(st.cache, now)
    requires Performed(Reset(st.(cache := st.cache.(authOk := false))), o, OAuthPost(st, o), response, capacity).result != Ok(200)
    ensures !Authenticated(st, o, response, now, capacity).ok
    ensures !Authenticated(st, o, response, now, capacity).state.cache.authOk
  {
  }

  /**
   * A 200 from the OAuth server whose grant does not decode: `authenticate`
   * fails, yet the token is left marked usable, and an authenticated helper
   * returns 200 without sending its own request, handing the caller the OAuth
   * reply as its response.
   */
  lemma UndecodableGrantReports200(st: LegacyState, o: Oracle, build: string -> Transfer, response: Json,
                                   now: Time, capacity: Capacity, block: string, body: Json)
    requires !TokenFresh(st.cache, now)
    requires o.respond(st.sent + [OAuthPost(st, o)]) == Completed(200, block, body)
    requires AuthFromJson(body).Err?
    ensures var e := Authorized(st, o, build, response, now, capacity);
      && e.result == Ok(200) && e.response == body
      && e.state.sent == st.sent + [OAuthPost(st, o)]
      && e.state.cache.authOk && e.state.lastCode == 200
  {
    var r := Reset(st);
    var l := st.profile.license;
    var s0 := r.(cache := r.cache.(authOk := false));
    var e := Posted(s0, o, l.oauthServer + OAuthSlug, "", OAuthBody(l, o.dump), false, response, now, capacity);
    assert e == Performed(Reset(s0), o, OAuthPost(st, o), response, capacity);
    assert Reset(s0).sent + [OAuthPost(st, o)] == st.sent + [OAuthPost(st, o)];
    assert e.result == Ok(200) && e.response == body && e.state.lastCode == 200;
    var a := Authenticated(r, o, response, now, capacity);
    assert a == AuthOutcome(e.state.(cache := e.state.cache.(authOk := true)), body, false);
  }

  /**
   * Reading a reply: the transfer joins the history and nothing else but
   * `last_code`, `last_error` and the response changes; a 2xx reply becomes the
   * response; a failed transfer returns its `CURLcode`, never a 2xx, with
   * libcurl's error text; any other reply keeps the response and copies its
   * "message" into `last_error`, or throws when it has none.
   */
  lemma ReplyHandling(st: LegacyState, o: Oracle, t: Transfer, response: Json, capacity: Capacity)
    ensures var e := Performed(st, o, t, response, capacity);
      && e.state.sent == st.sent + [t] && e.state.profile == st.profile && e.state.cache == st.cache
      && (e.result.Ok? ==> e.state.lastCode == e.result.value)
      && (e.result.Ok? && 200 <= e.result.value < 300 <==> o.respond(st.sent + [t]).Completed?
                                                            && 200 <= o.respond(st.sent + [t]).code < 300)
    ensures match o.respond(st.sent + [t])
      case Failed(c, text) => Performed(st, o, t, response, capacity) == Exchange(st.(sent := st.sent + [t], lastCode := c, lastError := text), response, Ok(c))
      case Completed(code, _, body) =>
        var e := Performed(st, o, t, response, capacity);
        && (200 <= code < 300 ==> e.response == body && e.state.lastError == st.lastError)
        && (!(200 <= code < 300) ==>
              && e.response == response
              && (StringAt(body, "message").Ok? ==> e.state.lastError == Strncpy(StringAt(body, "message").value, capacity))
              && (StringAt(body, "message").Err? <==> e.result.Err?))
  {
  }

  /**
   * The copy of the error message: shorter than the buffer, a prefix of the
   * message with no NUL in it, and the whole message when that fits and holds no NUL.
   */
  lemma StrncpyBounds(message: string, capacity: Capacity)
    ensures var r := Strncpy(message, capacity);
      && |r| < capacity && r == message[..|r|]
      && (forall i :: 0 <= i < |r| ==> r[i] != '\0')
      && ((|message| < capacity && forall i :: 0 <= i < |message| ==> message[i] != '\0') ==> r == message)
  {
    if forall i :: 0 <= i < |message| ==> message[i] != '\0' {
      CStringWithoutNul(message);
    }
  }

  /**
   * The header lines of `post_request`: the content type first, then the bearer
   * header exactly when authenticating, the user agent, the sensor header only
   * for a non-empty id, and the gzip marker last exactly when the body is longer
   * than 10000 bytes, in which case the compressed body is sent.
   */
  lemma PostHeaderRules(url: string, sensorId: string, body: string, bearer: Option<string>, ssl: Ssl,
                        gzip: string -> string)
    ensures var hs := PostTransfer(url, sensorId, body, bearer, ssl, gzip).headers;
      var b := if bearer.Some? then 1 else 0;
      && |hs| == 2 + b + (if sensorId != "" then 1 else 0) + (if Zipped(body) then 1 else 0)
      && hs[0] == ContentTypeHeader
      && (bearer.Some? ==> hs[1] == bearer.value)
      && hs[1 + b] == UserAgent
      && (sensorId != "" ==> hs[2 + b] == SensorIdPrefix + sensorId)
      && (hs[|hs| - 1] == GzipHeader <==> Zipped(body))
    ensures PostTransfer(url, sensorId, body, bearer, ssl, gzip).body == Some(if Zipped(body) then gzip(body) else body)
  {
    var hs := PostTransfer(url, sensorId, body, bearer, ssl, gzip).headers;
    if !Zipped(body) {
      assert UserAgent[0] != GzipHeader[0];
      assert sensorId != "" ==> (SensorIdPrefix + sensorId)[0] != GzipHeader[0];
      assert hs[|hs| - 1] != GzipHeader;
    }
  }

  /**
   * With a fresh token an authenticated `post_request` sends exactly its own
   * transfer, with the cached bearer header; an unauthenticated one sends its
   * transfer without one.
   */
  lemma PostSendsOneTransfer(st: LegacyState, o: Oracle, url: string, sensorId: string, body: string, doAuth: bool,
                             response: Json, now: Time, capacity: Capacity)
    requires doAuth ==> TokenFresh(st.cache, now)
    ensures Posted(st, o, url, sensorId, body, doAuth, response, now, capacity).state.sent
         == st.sent + [PostTransfer(url, sensorId, body, if doAuth then Some(st.cache.bearer) else None, st.profile.ssl, o.gzip)]
  {
    var t := PostTransfer(url, sensorId, body, if doAuth then Some(st.cache.bearer) else None, st.profile.ssl, o.gzip);
    if doAuth {
      var ssl := st.profile.ssl;
      var build := b => PostTransfer(url, sensorId, body, Some(b), ssl, o.gzip);
      assert Posted(st, o, url, sensorId, body, doAuth, response, now, capacity)
          == Authorized(st, o, build, response, now, capacity);
      assert Authenticated(Reset(st), o, response, now, capacity) == AuthOutcome(Reset(st), response, true);
      assert build(st.cache.bearer) == t;
      ReplyHandling(Reset(st), o, t, response, capacity);
    } else {
      ReplyHandling(Reset(st), o, t, response, capacity);
    }
  }

  /**
   * The sensor header: `get_request` and `put_request` send it only for a
   * non-empty id, `delete_request` always does; each sends the bearer header
   * second, after the content type.
   */
  lemma SensorHeaderRules(url: string, query: string, sensorId: string, body: string, bearer: string, ssl: Ssl)
    ensures var g := GetTransfer(url, query, sensorId, bearer, ssl).headers;
      && |g| == (if sensorId == "" then 3 else 4) && g[1] == bearer
      && (sensorId != "" ==> g[3] == SensorIdPrefix + sensorId)
    ensures var p := PutTransfer(url, sensorId, body, bearer, ssl).headers;
      && |p| == (if sensorId == "" then 3 else 4) && p[1] == bearer
    ensures var d := DeleteTransfer(url, sensorId, bearer, ssl).headers;
      && |d| == 4 && d[1] == bearer && d[3] == SensorIdPrefix + sensorId
    ensures GetTransfer(url, query, sensorId, bearer, ssl).url == url + query
  {
  }

  /**
   * `pretrain_sensor` without blocking succeeds only on a 200 or 202 whose body
   * decodes, and then returns the decoded record; with a fresh token its one
   * request is the authenticated POST of the CSV text to the server's "/pretrain".
   */
  lemma LegacyPretrainRule(st: LegacyState, o: Oracle, response: PretrainState, sensorId: string, csvdata: string,
                           autotuneConfig: bool, now: Time, capacity: Capacity)
    ensures var e := Posted(st, o, st.profile.license.server + PretrainSlug, sensorId,
                            o.dump(LegacyPretrainJson(csvdata, autotuneConfig)), true, JNull, now, capacity);
      var (st', r, ok) := Pretrained(st, o, response, sensorId, csvdata, autotuneConfig, now, capacity);
      && st' == e.state
      && (ok <==> e.result in {Ok(200), Ok(202)} && PretrainFromJson(e.response, PretrainState("", "")).Ok?)
      && (ok ==> r == PretrainFromJson(e.response, PretrainState("", "")).value)
      && (!ok ==> r == response)
    ensures TokenFresh(st.cache, now) ==>
      Pretrained(st, o, response, sensorId, csvdata, autotuneConfig, now, capacity).0.sent
      == st.sent + [PostTransfer(st.profile.license.server + PretrainSlug, sensorId,
                                 o.dump(LegacyPretrainJson(csvdata, autotuneConfig)), Some(st.cache.bearer),
                                 st.profile.ssl, o.gzip)]
  {
    if TokenFresh(st.cache, now) {
      PostSendsOneTransfer(st, o, st.profile.license.server + PretrainSlug, sensorId,
                           o.dump(LegacyPretrainJson(csvdata, autotuneConfig)), true, JNull, now, capacity);
    }
  }
}
