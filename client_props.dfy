/**
 * What the client's specification functions promise: the token-reuse rule, what
 * `call_api` sends and in which order, how the samples are cut into chunks, and
 * how the chunk loop threads the transaction id and ends.
 */
module ClientProperties {
  import opened Wrappers
  import opened Strings
  import opened OrderedKeys
  import opened Json
  import opened Models
  import opened Credentials
  import opened Transport
  import opened Client

  // ----- the token cache -------------------------------------------------------------

  /** The OAuth transfer `authenticate` makes from session `s`. */
  function OAuthTransfer(s: Session, o: Oracle): Transfer {
    Prepare(s.profile.license.oauthServer, None, AuthRequest(s.profile.license, o.dump), s.profile.ssl, o.gzip)
  }

  /**
   * `authenticate` makes a transfer exactly when the cached token is not fresh.
   * A fresh token changes nothing and reports code 200; otherwise the one
   * transfer is the OAuth request and the caller's record is left alone.
   */
  lemma AuthRequestsExactlyWhenStale(s: Session, o: Oracle, res: Response, now: Time)
    ensures AuthCall(s, o, res, now).session.sent == s.sent <==> TokenFresh(s.cache, now)
    ensures TokenFresh(s.cache, now) ==> AuthCall(s, o, res, now) == AuthEffect(s, res.(code := 200), Ok(true))
    ensures !TokenFresh(s.cache, now) ==>
      && AuthCall(s, o, res, now).session.sent == s.sent + [OAuthTransfer(s, o)]
      && AuthCall(s, o, res, now).response == res
  {
    if !TokenFresh(s.cache, now) {
      var s1 := s.(cache := s.cache.(authOk := false));
      var inner := ApiCall(s1, o, AuthRequest(s.profile.license, o.dump), NoResponse, true, now);
      AuthCallStale(s, o, res, now, inner);
      assert inner.session.sent == s.sent + [OAuthTransfer(s, o)];
      assert |AuthCall(s, o, res, now).session.sent| == |s.sent| + 1;
    }
  }

  /**
   * The reuse rule as written: a token issued at time `issued` with lifetime `e`
   * is reused exactly while `now < issued + 100`, whatever `e` is, as long as
   * nothing wraps around.
   */
  lemma IssuedTokenWindow(c: TokenCache, a: AuthResponse, e: nat, issued: Time, now: Time)
    requires Stoul(a.expiresIn) == Ok(e)
    requires 0 <= issued && issued + e < 0x8000_0000_0000_0000
    requires 100 <= now + e < Two64
    ensures Grant(c, a, issued).1 == Ok(true)
    ensures TokenFresh(Grant(c, a, issued).0, now) <==> now < issued + 100
  {
    var t := Grant(c, a, issued).0;
    assert t.expiresIn == e && t.authTime == issued + e;
    assert (now + e - 100) % Two64 == now + e - 100;
    assert t.authTime % Two64 == issued + e;
  }

  /**
   * Storing the OAuth reply: any code but 200 makes the token unusable and
   * reports false; a grant whose lifetime reads is stored with its bearer header
   * and expiry time; a grant whose lifetime does not read is still marked usable,
   * keeping the previous header and times.
   */
  lemma IssueOutcomes(c: TokenCache, res: Response, now: Time)
    ensures res.code != 200 ==> Issue(c, res, now) == (c.(authOk := false), Ok(false))
    ensures Issue(c, res, now).1 == Ok(true) ==>
      var t := Issue(c, res, now).0;
      && res.code == 200 && GeneratedAuthFromJson(res.body) == Ok(t.auth)
      && t.authOk && t.bearer == BearerPrefix + t.auth.idToken
      && Stoul(t.auth.expiresIn) == Ok(t.expiresIn) && t.authTime % Two64 == (now + t.expiresIn) % Two64
    ensures Issue(c, res, now).1.Err? && Issue(c, res, now).1.error.StoulException? ==>
      var t := Issue(c, res, now).0;
      && t.authOk && t.bearer == c.bearer && t.expiresIn == c.expiresIn && t.authTime == c.authTime
    ensures Issue(c, res, now).1.Ok? <==> res.code != 200 || Issue(c, res, now).1 == Ok(true)
  {
    if res.code == 200 && GeneratedAuthFromJson(res.body).Ok? {
      var a := GeneratedAuthFromJson(res.body).value;
      assert Issue(c, res, now) == Grant(c, a, now);
    }
  }

  /**
   * A rejected OAuth request: a non-auth `call_api` with a stale token stops after
   * the OAuth transfer, reports code 0, throws nothing and leaves the token unusable.
   */
  lemma RejectedAuthSendsNothingElse(s: Session, o: Oracle, req: Request, res: Response, now: Time)
    requires !TokenFresh(s.cache, now)
    requires Received(o.respond(s.sent + [OAuthTransfer(s, o)]), NoResponse).code != 200
    ensures ApiCall(s, o, req, res, false, now)
         == CallEffect(ApiCall(s, o, req, res, false, now).session, req, res.(code := 0), None)
    ensures ApiCall(s, o, req, res, false, now).session.sent == s.sent + [OAuthTransfer(s, o)]
    ensures !ApiCall(s, o, req, res, false, now).session.cache.authOk
  {
    var s1 := s.(cache := s.cache.(authOk := false));
    var inner := ApiCall(s1, o, AuthRequest(s.profile.license, o.dump), NoResponse, true, now);
    AuthCallStale(s, o, res.(code := 0), now, inner);
    AuthRequestsExactlyWhenStale(s, o, res.(code := 0), now);
  }

  /**
   * A failed transfer after a reused token reports code 200: `authenticate` wrote
   * 200 into the caller's record and the failed transfer leaves it there.
   */
  lemma ReusedTokenMasksFailedTransfer(s: Session, o: Oracle, req: Request, res: Response, now: Time)
    requires TokenFresh(s.cache, now)
    requires o.respond(s.sent + [Prepare(s.profile.license.server, Some(s.cache.bearer), req, s.profile.ssl, o.gzip)]).Failed?
    ensures ApiCall(s, o, req, res, false, now).response.code == 200
    ensures ApiCall(s, o, req, res, false, now).thrown == None
  {
    AuthRequestsExactlyWhenStale(s, o, res.(code := 0), now);
  }

  // ----- request assembly ------------------------------------------------------------

  /**
   * The header list of a transfer: the bearer header first (only when there is
   * one), then the user agent, then one "key:value" line per request header in
   * ascending key order, each key once, then the gzip marker when the body is
   * compressed.
   */
  lemma TransferHeaderOrder(server: string, bearer: Option<string>, r: Request, ssl: Ssl, gzip: string -> string)
    ensures var hs := Prepare(server, bearer, r, ssl, gzip).headers;
      var b := if bearer.Some? then 1 else 0;
      var ks := SortedKeys(r.headers.Keys);
      && |hs| == b + 1 + |r.headers| + (if Compresses(r) then 1 else 0)
      && (bearer.Some? ==> hs[0] == bearer.value)
      && hs[b] == UserAgent
      && |ks| == |r.headers| && StrictlyAscending(ks) && (forall k :: k in r.headers <==> k in ks)
      && (forall i :: 0 <= i < |ks| ==> ks[i] in r.headers && hs[b + 1 + i] == ks[i] + ":" + r.headers[ks[i]])
      && (Compresses(r) ==> hs[|hs| - 1] == GzipHeader)
  {
    assert Prepare(server, bearer, r, ssl, gzip).headers == HeaderLines(bearer, r.headers, Compresses(r));
    HeaderLinesOrder(bearer, r.headers, Compresses(r));
  }

  /** `TransferHeaderOrder` for the header lines themselves. */
  lemma HeaderLinesOrder(bearer: Option<string>, headers: map<string, string>, gzip: bool)
    ensures var hs := HeaderLines(bearer, headers, gzip);
      var b := if bearer.Some? then 1 else 0;
      var ks := SortedKeys(headers.Keys);
      && |hs| == b + 1 + |headers| + (if gzip then 1 else 0)
      && (bearer.Some? ==> hs[0] == bearer.value)
      && hs[b] == UserAgent
      && |ks| == |headers| && StrictlyAscending(ks) && (forall k :: k in headers <==> k in ks)
      && (forall i :: 0 <= i < |ks| ==> ks[i] in headers && hs[b + 1 + i] == ks[i] + ":" + headers[ks[i]])
      && (gzip ==> hs[|hs| - 1] == GzipHeader)
  {
    SortedKeysMembers(headers.Keys);
    SortedKeysOrdered(headers.Keys);
  }

  /**
   * The body of a transfer: a POST longer than 10000 characters goes compressed,
   * any other POST as it is, a PUT up to its first NUL (all of it when it holds
   * none), other operations send none; the request record keeps the compressed
   * body.
   */
  lemma CompressionRule(server: string, bearer: Option<string>, r: Request, ssl: Ssl, gzip: string -> string)
    ensures Compresses(r) <==> r.operation == "POST" && |r.body| > 10000
    ensures Prepare(server, bearer, r, ssl, gzip).body
         == if r.operation == "POST" then Some(if |r.body| > 10000 then gzip(r.body) else r.body)
            else if r.operation == "PUT" then Some(r.body[..|CString(r.body)|])
            else None
    ensures r.operation == "PUT" && (forall i :: 0 <= i < |r.body| ==> r.body[i] != '\0')
         ==> Prepare(server, bearer, r, ssl, gzip).body == Some(r.body)
    ensures SentRequest(r, gzip) == if Compresses(r) then r.(body := gzip(r.body)) else r
  {
    if r.operation == "PUT" && forall i :: 0 <= i < |r.body| ==> r.body[i] != '\0' {
      CStringWithoutNul(r.body);
    }
  }

  /**
   * Where `call_api` sends: the OAuth request to the OAuth server without a
   * token; any other request, once authenticated, to the server with the bearer
   * header; the URL is the server, '/', the slug and the query string.
   */
  lemma UrlChoice(s: Session, o: Oracle, req: Request, res: Response, isAuth: bool, now: Time)
    ensures isAuth ==>
      ApiCall(s, o, req, res, isAuth, now).session.sent
      == s.sent + [Prepare(s.profile.license.oauthServer, None, req, s.profile.ssl, o.gzip)]
    ensures !isAuth && TokenFresh(s.cache, now) ==>
      ApiCall(s, o, req, res, isAuth, now).session.sent
      == s.sent + [Prepare(s.profile.license.server, Some(s.cache.bearer), req, s.profile.ssl, o.gzip)]
    ensures Prepare(s.profile.license.server, Some(s.cache.bearer), req, s.profile.ssl, o.gzip).url
         == s.profile.license.server + "/" + req.slug + req.queryParams
  {
    if !isAuth {
      AuthRequestsExactlyWhenStale(s, o, res.(code := 0), now);
    }
  }

  /**
   * The TLS options of a transfer: the certificate and the CA bundle are passed
   * only while verifying, and only when set.
   */
  lemma TlsRule(ssl: Ssl)
    ensures TlsOptions(ssl).verifyPeer == ssl.verify
    ensures TlsOptions(ssl).cert.Some? <==> ssl.verify && ssl.cert != ""
    ensures TlsOptions(ssl).cainfo.Some? <==> ssl.verify && ssl.cainfo != ""
  {
  }

  // ----- chunked pretraining ---------------------------------------------------------

  /** Chunk `i` of `n` samples is non-empty, at most a million samples long, and inside the samples. */
  lemma ChunkBounds(i: nat, n: nat)
    requires i < ChunkCount(n)
    ensures i * ChunkSize < ChunkEnd(i, n) <= n
    ensures ChunkEnd(i, n) - i * ChunkSize <= ChunkSize
  {
    assert i * ChunkSize < n;
  }

  /** No samples means no chunks; each chunk ends where the next begins, and the last ends at `n`. */
  lemma ChunksTile(n: nat)
    ensures ChunkCount(n) == 0 <==> n == 0
    ensures forall i: nat :: i + 1 < ChunkCount(n) ==> ChunkEnd(i, n) == (i + 1) * ChunkSize
    ensures n > 0 ==> ChunkEnd(ChunkCount(n) - 1, n) == n
  {
    forall i: nat | i + 1 < ChunkCount(n) ensures ChunkEnd(i, n) == (i + 1) * ChunkSize {
      assert (i + 1) * ChunkSize < n;
    }
  }

  /** The samples of chunk `i`. */
  function Chunk(samples: seq<Sample>, i: nat): seq<Sample>
    requires i < ChunkCount(|samples|)
  {
    ChunkBounds(i, |samples|);
    samples[i * ChunkSize..ChunkEnd(i, |samples|)]
  }

  /** The first `k` chunks, one after the other. */
  function JoinChunks(samples: seq<Sample>, k: nat): seq<Sample>
    requires k <= ChunkCount(|samples|)
  {
    if k == 0 then [] else JoinChunks(samples, k - 1) + Chunk(samples, k - 1)
  }

  /** The first `k` chunks are the samples up to the end of chunk `k - 1`. */
  lemma {:induction false} JoinChunksPrefix(samples: seq<Sample>, k: nat)
    requires 0 < k <= ChunkCount(|samples|)
    ensures ChunkEnd(k - 1, |samples|) <= |samples|
    ensures JoinChunks(samples, k) == samples[..ChunkEnd(k - 1, |samples|)]
  {
    ChunkBounds(k - 1, |samples|);
    if k > 1 {
      JoinChunksPrefix(samples, k - 1);
      ChunksTile(|samples|);
      assert ChunkEnd(k - 2, |samples|) == (k - 1) * ChunkSize;
      assert samples[..ChunkEnd(k - 1, |samples|)]
          == samples[..(k - 1) * ChunkSize] + samples[(k - 1) * ChunkSize..ChunkEnd(k - 1, |samples|)];
    } else {
      assert samples[..ChunkEnd(0, |samples|)] == samples[0..ChunkEnd(0, |samples|)];
    }
  }

  /** The chunks, in order, are exactly the samples. */
  lemma ChunksConcatenate(samples: seq<Sample>)
    ensures JoinChunks(samples, ChunkCount(|samples|)) == samples
  {
    ChunksTile(|samples|);
    if |samples| > 0 {
      JoinChunksPrefix(samples, ChunkCount(|samples|));
    }
  }

  /** In digits, a colon, then anything, the first colon is the one after the digits. */
  lemma ColonAfterDigits(a: string, b: string)
    requires forall i :: 0 <= i < |a| ==> IsDigit(a[i])
    ensures (a + [':'] + b)[|a|] == ':'
    ensures forall j :: 0 <= j < |a| ==> (a + [':'] + b)[j] != ':'
  {
    forall j | 0 <= j < |a| ensures (a + [':'] + b)[j] != ':' {
      assert (a + [':'] + b)[j] == a[j];
    }
  }

  /** The "amberchunk" label names its chunk and the chunk count unambiguously. */
  lemma ChunkLabelIdentifies(i: nat, count: nat, j: nat, count': nat)
    requires ChunkLabel(i, count) == ChunkLabel(j, count')
    ensures i == j && count == count'
  {
    var a, b := NatToString(i + 1), NatToString(count);
    var a', b' := NatToString(j + 1), NatToString(count');
    var l := ChunkLabel(i, count);
    assert l == a + [':'] + b && l == a' + [':'] + b';
    ColonAfterDigits(a, b);
    ColonAfterDigits(a', b');
    assert |a| == |a'|;
    assert a == l[..|a|] == a';
    assert b == l[|a| + 1..] == b';
    NatToStringInjective(i + 1, j + 1);
    NatToStringInjective(count, count');
  }

  /**
   * The headers of chunk `i`: the JSON content type, the sensor id, the chunk
   * label, and the transaction id exactly when one has been received.
   */
  lemma ChunkHeadersRule(c: XlCall, dump: Json -> string, i: nat, transaction: string)
    requires i < ChunkCount(|c.samples|)
    ensures var h := ChunkRequest(c, dump, i, transaction).headers;
      && h.Keys == {"content-type", "sensorid", "amberchunk"} + (if transaction != "" then {"ambertransaction"} else {})
      && h["content-type"] == "application/json" && h["sensorid"] == c.sensorId
      && h["amberchunk"] == ChunkLabel(i, ChunkCount(|c.samples|))
      && (transaction != "" ==> h["ambertransaction"] == transaction)
  {
  }

  /**
   * A run of the chunk loop from chunk `i` sends at most the remaining chunks,
   * one reply per request, and returns null only after sending all of them.
   */
  lemma {:induction false} XlTraceLength(s: Session, o: Oracle, c: XlCall, i: nat, transaction: string,
                                         response: PretrainProgress, now: Time)
    requires i <= ChunkCount(|c.samples|)
    ensures var t := XlFrom(s, o, c, i, transaction, response, now);
      && |t.requests| == |t.responses| <= ChunkCount(|c.samples|) - i
      && (t.outcome == Returned(None) ==> |t.requests| == ChunkCount(|c.samples|) - i)
    decreases ChunkCount(|c.samples|) - i, 1
  {
    if i < ChunkCount(|c.samples|) {
      var req := ChunkRequest(c, o.dump, i, transaction);
      XlAfterLength(o, c, i, req, ApiCall(s, o, req, NoResponse, false, now), response, now);
    }
  }

  /** `XlTraceLength` once the request for chunk `i` has had its effect. */
  lemma {:induction false} XlAfterLength(o: Oracle, c: XlCall, i: nat, req: Request, e: CallEffect,
                                         response: PretrainProgress, now: Time)
    requires i < ChunkCount(|c.samples|)
    ensures var t := XlAfter(o, c, i, req, e, response, now);
      && |t.requests| == |t.responses| <= ChunkCount(|c.samples|) - i
      && (t.outcome == Returned(None) ==> |t.requests| == ChunkCount(|c.samples|) - i)
    decreases ChunkCount(|c.samples|) - i, 0
  {
    if e.thrown.None? && e.response.code == 202 && GeneratedProgressFromJson(e.response.body).Ok? {
      XlTraceLength(e.session, o, c, i + 1, HeaderValue(e.response.headers, "ambertransaction"),
                    GeneratedProgressFromJson(e.response.body).value, now);
    }
  }

  /**
   * How the replies of a run of the chunk loop end it: every reply but the last
   * is a 202, a run that returns null saw only 202s, and a run that returns an
   * error body returns the body of a last reply that was not a 202.
   */
  predicate RepliesEndRun(t: XlTrace) {
    && (forall k :: 0 <= k < |t.responses| - 1 ==> t.responses[k].code == 202)
    && (t.outcome == Returned(None) ==> forall k :: 0 <= k < |t.responses| ==> t.responses[k].code == 202)
    && (t.outcome.Returned? && t.outcome.error.Some? ==>
          |t.responses| > 0 && t.responses[|t.responses| - 1].code != 202
          && t.outcome.error == Some(t.responses[|t.responses| - 1].body))
  }

  /** An accepted chunk in front of a run keeps the run's replies in shape. */
  lemma AcceptedReplyFirst(req: Request, r: Response, rest: XlTrace)
    requires r.code == 202 && RepliesEndRun(rest)
    ensures RepliesEndRun(rest.(requests := [req] + rest.requests, responses := [r] + rest.responses))
  {
    var t := rest.(requests := [req] + rest.requests, responses := [r] + rest.responses);
    forall k | 0 <= k < |t.responses| - 1 ensures t.responses[k].code == 202 {
      if k > 0 {
        assert t.responses[k] == rest.responses[k - 1];
      }
    }
    if t.outcome.Returned? && t.outcome.error.Some? {
      assert t.responses[|t.responses| - 1] == rest.responses[|rest.responses| - 1];
    }
  }

  /** Every run of the chunk loop ends as `RepliesEndRun` says. */
  lemma {:induction false} XlTraceReplies(s: Session, o: Oracle, c: XlCall, i: nat, transaction: string,
                                          response: PretrainProgress, now: Time)
    requires i <= ChunkCount(|c.samples|)
    ensures RepliesEndRun(XlFrom(s, o, c, i, transaction, response, now))
    decreases ChunkCount(|c.samples|) - i, 1
  {
    if i < ChunkCount(|c.samples|) {
      var req := ChunkRequest(c, o.dump, i, transaction);
      XlAfterReplies(o, c, i, req, ApiCall(s, o, req, NoResponse, false, now), response, now);
    }
  }

  /** `XlTraceReplies` once the request for chunk `i` has had its effect. */
  lemma {:induction false} XlAfterReplies(o: Oracle, c: XlCall, i: nat, req: Request, e: CallEffect,
                                          response: PretrainProgress, now: Time)
    requires i < ChunkCount(|c.samples|)
    ensures RepliesEndRun(XlAfter(o, c, i, req, e, response, now))
    decreases ChunkCount(|c.samples|) - i, 0
  {
    if e.thrown.None? && e.response.code == 202 && GeneratedProgressFromJson(e.response.body).Ok? {
      var tx, p := HeaderValue(e.response.headers, "ambertransaction"), GeneratedProgressFromJson(e.response.body).value;
      XlTraceReplies(e.session, o, c, i + 1, tx, p, now);
      AcceptedReplyFirst(req, e.response, XlFrom(e.session, o, c, i + 1, tx, p, now));
    }
  }

  /**
   * The progress record a run of the chunk loop leaves in `response`. Every reply
   * but the last was an accepted 202, and the last one too when the run returns
   * null. The record is the decoded body of the last accepted reply, or the prior
   * record when no reply was accepted. A run that sends nothing returns null.
   */
  predicate ProgressKept(t: XlTrace, prior: PretrainProgress) {
    && (t.responses == [] ==> t.outcome == Returned(None) && t.response == prior)
    && (t.outcome == Returned(None) && t.responses != [] ==>
          GeneratedProgressFromJson(t.responses[|t.responses| - 1].body) == Ok(t.response))
    && (t.outcome != Returned(None) && |t.responses| == 1 ==> t.response == prior)
    && (t.outcome != Returned(None) && |t.responses| > 1 ==>
          GeneratedProgressFromJson(t.responses[|t.responses| - 2].body) == Ok(t.response))
  }

  /** An accepted chunk whose reply decodes to `p`, in front of a run that started from `p`, keeps the record in shape. */
  lemma ProgressBehindAccepted(req: Request, r: Response, p: PretrainProgress, rest: XlTrace)
    requires GeneratedProgressFromJson(r.body) == Ok(p) && ProgressKept(rest, p)
    ensures ProgressKept(rest.(requests := [req] + rest.requests, responses := [r] + rest.responses), p)
  {
    var t := rest.(requests := [req] + rest.requests, responses := [r] + rest.responses);
    if rest.responses != [] {
      assert t.responses[|t.responses| - 1] == rest.responses[|rest.responses| - 1];
    }
    if |rest.responses| > 1 {
      assert t.responses[|t.responses| - 2] == rest.responses[|rest.responses| - 2];
    }
  }

  /** Every run of the chunk loop leaves its progress record as `ProgressKept` says. */
  lemma {:induction false} XlTraceProgress(s: Session, o: Oracle, c: XlCall, i: nat, transaction: string,
                                           response: PretrainProgress, now: Time)
    requires i <= ChunkCount(|c.samples|)
    ensures ProgressKept(XlFrom(s, o, c, i, transaction, response, now), response)
    decreases ChunkCount(|c.samples|) - i, 1
  {
    if i < ChunkCount(|c.samples|) {
      var req := ChunkRequest(c, o.dump, i, transaction);
      XlAfterProgress(o, c, i, req, ApiCall(s, o, req, NoResponse, false, now), response, now);
    }
  }

  /** `XlTraceProgress` once the request for chunk `i` has had its effect. */
  lemma {:induction false} XlAfterProgress(o: Oracle, c: XlCall, i: nat, req: Request, e: CallEffect,
                                           response: PretrainProgress, now: Time)
    requires i < ChunkCount(|c.samples|)
    ensures ProgressKept(XlAfter(o, c, i, req, e, response, now), response)
    decreases ChunkCount(|c.samples|) - i, 0
  {
    if e.thrown.None? && e.response.code == 202 && GeneratedProgressFromJson(e.response.body).Ok? {
      var tx, p := HeaderValue(e.response.headers, "ambertransaction"), GeneratedProgressFromJson(e.response.body).value;
      XlTraceProgress(e.session, o, c, i + 1, tx, p, now);
      ProgressBehindAccepted(req, e.response, p, XlFrom(e.session, o, c, i + 1, tx, p, now));
    }
  }

  /**
   * The requests of a run from chunk `i` are the chunks in order: the first
   * carries `transaction`, each later one the transaction id of the reply
   * before it.
   */
  predicate ChunksInOrder(c: XlCall, dump: Json -> string, i: nat, transaction: string,
                          requests: seq<Request>, responses: seq<Response>)
    decreases |requests|
  {
    requests == []
    || (&& i < ChunkCount(|c.samples|) && responses != []
        && requests[0] == ChunkRequest(c, dump, i, transaction)
        && ChunksInOrder(c, dump, i + 1, HeaderValue(responses[0].headers, "ambertransaction"),
                         requests[1..], responses[1..]))
  }

  /** Request `k` of a run from chunk `i` is chunk `i + k` with the transaction id of reply `k - 1`. */
  predicate ChunkFollows(c: XlCall, dump: Json -> string, i: nat, requests: seq<Request>, responses: seq<Response>,
                         k: nat)
    requires 0 < k < |requests|
  {
    && k <= |responses| && i + k < ChunkCount(|c.samples|)
    && requests[k] == ChunkRequest(c, dump, i + k, HeaderValue(responses[k - 1].headers, "ambertransaction"))
  }

  /** `ChunksInOrder` read request by request. */
  lemma {:induction false} ChunksInOrderIndexed(c: XlCall, dump: Json -> string, i: nat, transaction: string,
                                                requests: seq<Request>, responses: seq<Response>)
    requires ChunksInOrder(c, dump, i, transaction, requests, responses)
    ensures |requests| > 0 ==> i < ChunkCount(|c.samples|) && requests[0] == ChunkRequest(c, dump, i, transaction)
    ensures forall k :: 0 < k < |requests| ==> ChunkFollows(c, dump, i, requests, responses, k)
    decreases |requests|
  {
    if requests != [] {
      var tx := HeaderValue(responses[0].headers, "ambertransaction");
      ChunksInOrderIndexed(c, dump, i + 1, tx, requests[1..], responses[1..]);
      forall k | 0 < k < |requests| ensures ChunkFollows(c, dump, i, requests, responses, k) {
        var rs, ps := requests[1..], responses[1..];
        assert requests[k] == rs[k - 1];
        if k == 1 {
          assert rs[0] == ChunkRequest(c, dump, i + 1, tx);
        } else {
          assert ChunkFollows(c, dump, i + 1, rs, ps, k - 1);
          assert responses[k - 1] == ps[k - 2];
        }
      }
    }
  }

  /**
   * The requests of a run of the chunk loop are the chunks in order: the first
   * carries the transaction id the run starts with, each later one the id the
   * previous reply carried.
   */
  lemma XlTraceRequests(s: Session, o: Oracle, c: XlCall, i: nat, transaction: string,
                        response: PretrainProgress, now: Time)
    requires i <= ChunkCount(|c.samples|)
    ensures var t := XlFrom(s, o, c, i, transaction, response, now);
      && |t.requests| == |t.responses|
      && (|t.requests| > 0 ==> t.requests[0] == ChunkRequest(c, o.dump, i, transaction))
      && (forall k :: 0 < k < |t.requests| ==> ChunkFollows(c, o.dump, i, t.requests, t.responses, k))
  {
    XlTraceLength(s, o, c, i, transaction, response, now);
    XlFromInOrder(s, o, c, i, transaction, response, now);
    var t := XlFrom(s, o, c, i, transaction, response, now);
    ChunksInOrderIndexed(c, o.dump, i, transaction, t.requests, t.responses);
  }

  /** The requests of every run of the chunk loop are `ChunksInOrder`. */
  lemma {:induction false} XlFromInOrder(s: Session, o: Oracle, c: XlCall, i: nat, transaction: string,
                                         response: PretrainProgress, now: Time)
    requires i <= ChunkCount(|c.samples|)
    ensures var t := XlFrom(s, o, c, i, transaction, response, now);
      ChunksInOrder(c, o.dump, i, transaction, t.requests, t.responses)
    decreases ChunkCount(|c.samples|) - i, 1
  {
    if i < ChunkCount(|c.samples|) {
      var req := ChunkRequest(c, o.dump, i, transaction);
      XlAfterInOrder(o, c, i, transaction, req, ApiCall(s, o, req, NoResponse, false, now), response, now);
    }
  }

  /** `XlFromInOrder` once the request for chunk `i` has had its effect. */
  lemma {:induction false} XlAfterInOrder(o: Oracle, c: XlCall, i: nat, transaction: string, req: Request,
                                          e: CallEffect, response: PretrainProgress, now: Time)
    requires i < ChunkCount(|c.samples|) && req == ChunkRequest(c, o.dump, i, transaction)
    ensures var t := XlAfter(o, c, i, req, e, response, now);
      ChunksInOrder(c, o.dump, i, transaction, t.requests, t.responses)
    decreases ChunkCount(|c.samples|) - i, 0
  {
    var t := XlAfter(o, c, i, req, e, response, now);
    if e.thrown.None? && e.response.code == 202 && GeneratedProgressFromJson(e.response.body).Ok? {
      var tx, p := HeaderValue(e.response.headers, "ambertransaction"), GeneratedProgressFromJson(e.response.body).value;
      var rest := XlFrom(e.session, o, c, i + 1, tx, p, now);
      XlFromInOrder(e.session, o, c, i + 1, tx, p, now);
      assert t.requests[1..] == rest.requests && t.responses[1..] == rest.responses;
    } else {
      assert t.requests[1..] == [];
    }
  }

  /** With no samples the loop sends nothing and returns null. */
  lemma NoSamplesNoRequests(s: Session, o: Oracle, c: XlCall, transaction: string, response: PretrainProgress, now: Time)
    requires |c.samples| == 0
    ensures XlFrom(s, o, c, 0, transaction, response, now) == XlTrace(s, [], [], response, Returned(None))
  {
  }

  /**
   * The reply switch of `pretrain_sensor` without blocking: a 202 leaves the
   * caller's record untouched and returns null, a 200 returns null with the
   * decoded progress, any other code returns the error body; the one request
   * sent carries the CSV text.
   */
  lemma PretrainReplySwitch(s: Session, o: Oracle, sensorId: string, csvdata: string, autotuneConfig: bool,
                            response: PretrainProgress, now: Time)
    ensures var e := ApiCall(s, o, CsvRequest(sensorId, csvdata, autotuneConfig, o.dump), NoResponse, false, now);
      var r := PretrainCall(s, o, sensorId, csvdata, autotuneConfig, response, now);
      && r.0 == e.session
      && (e.thrown.None? && e.response.code == 202 ==> r.1 == response && r.2 == Returned(None))
      && (e.thrown.None? && e.response.code != 200 && e.response.code != 202 ==>
            r.1 == response && r.2 == Returned(Some(e.response.body)))
      && (r.2 == Returned(None) && r.1 != response ==> GeneratedProgressFromJson(e.response.body) == Ok(r.1))
      && (e.thrown.None? && e.response.code == 200 ==>
            var d := GeneratedProgressFromJson(e.response.body);
            && (d.Ok? ==> r.1 == d.value && r.2 == Returned(None))
            && (d.Err? ==> r.1 == response && r.2 == Threw(JsonException(d.error))))
      && (e.thrown.Some? ==> r.1 == response && r.2 == Threw(e.thrown.value))
    ensures CsvRequest(sensorId, csvdata, autotuneConfig, o.dump).body
         == o.dump(JObject(map["data" := JString(csvdata), "format" := JString("csv"), "autotuneConfig" := JBool(autotuneConfig)]))
  {
  }
}
