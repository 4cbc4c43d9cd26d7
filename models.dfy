/**
 * JSON mappings of the SDK's records (include/amber_models.h), plus the decoding
 * rule that generate.py writes into every generated record: a property is read
 * only when the object contains it and its value is not `empty()`.
 */
module Models {
  import opened Wrappers
  import opened Json

  // ----- license_entry -------------------------------------------------------

  /** One profile of a license file. */
  datatype LicenseEntry = LicenseEntry(username: string, password: string, server: string, oauthServer: string)

  /** A value-initialised `license_entry`. */
  const EmptyLicense := LicenseEntry("", "", "", "")

  /** The OAuth server a profile stands for: its own, or the API server when it has none. */
  function EffectiveOAuthServer(r: LicenseEntry): string {
    if r.oauthServer != "" then r.oauthServer else r.server
  }

  /** `to_json(license_entry)`. */
  function LicenseToJson(r: LicenseEntry): (j: Json)
    ensures j.JObject? && j.fields.Keys == {"username", "password", "server", "oauth-server"}
    ensures j.fields["username"] == JString(r.username) && j.fields["password"] == JString(r.password)
    ensures j.fields["server"] == JString(r.server)
    ensures j.fields["oauth-server"] == JString(EffectiveOAuthServer(r))
  {
    JObject(map["username" := JString(r.username), "password" := JString(r.password),
                "server" := JString(r.server),
                "oauth-server" := JString(if r.oauthServer != "" then r.oauthServer else r.server)])
  }

  /** The keys `from_json(license_entry)` demands, each holding a string. */
  predicate IsLicenseObject(j: Json) {
    && j.JObject?
    && "username" in j.fields && j.fields["username"].JString?
    && "password" in j.fields && j.fields["password"].JString?
    && "server" in j.fields && j.fields["server"].JString?
    && ("oauth-server" in j.fields ==> j.fields["oauth-server"].JString?)
  }

  /**
   * `from_json(j, r)` for a `license_entry`: username, password and server are read
   * with `at()`; "oauth-server" only when present, otherwise `r.oauth_server` is kept.
   */
  function LicenseFromJson(j: Json, r: LicenseEntry): (res: Result<LicenseEntry, JsonError>)
    ensures res.Ok? <==> IsLicenseObject(j)
    ensures res.Ok? ==> res.value == LicenseEntry(j.fields["username"].s, j.fields["password"].s,
      j.fields["server"].s, if "oauth-server" in j.fields then j.fields["oauth-server"].s else r.oauthServer)
    ensures j.JObject? && "username" !in j.fields ==> res == Err(OutOfRange("username"))
    ensures j.JObject? && "username" in j.fields && j.fields["username"].JString? && "password" !in j.fields
      ==> res == Err(OutOfRange("password"))
    ensures j.JObject? && "username" in j.fields && j.fields["username"].JString?
      && "password" in j.fields && j.fields["password"].JString? && "server" !in j.fields
      ==> res == Err(OutOfRange("server"))
  {
    var username :- StringAt(j, "username");
    var password :- StringAt(j, "password");
    var server :- StringAt(j, "server");
    if Contains(j, "oauth-server") then
      var oauth :- StringAt(j, "oauth-server");
      Ok(LicenseEntry(username, password, server, oauth))
    else
      // the source reads "server" a second time here; the value is the one already read
      Ok(LicenseEntry(username, password, server, r.oauthServer))
  }

  /** Reading back what `to_json` wrote gives the profile, with its OAuth server made explicit. */
  lemma LicenseRoundTrip(r: LicenseEntry, prior: LicenseEntry)
    ensures LicenseFromJson(LicenseToJson(r), prior) == Ok(r.(oauthServer := EffectiveOAuthServer(r)))
  {
  }

  /** `license_entry::dump` prints `{username, "********", server}`: the password is redacted and the OAuth server is the API server. */
  function LicenseDumpJson(r: LicenseEntry): (j: Json)
    ensures j.JObject? && j.fields.Keys == {"username", "password", "server", "oauth-server"}
    ensures "password" in j.fields && j.fields["password"] == JString("********")
    ensures "oauth-server" in j.fields && j.fields["oauth-server"] == JString(r.server)
    ensures j.fields["username"] == JString(r.username) && j.fields["server"] == JString(r.server)
  {
    LicenseToJson(LicenseEntry(r.username, "********", r.server, ""))
  }

  // ----- sensor_instance and list_sensors_response ---------------------------

  datatype SensorInstance = SensorInstance(sensorId: string, sensorLabel: string)

  /** `to_json(sensor_instance)` (NLOHMANN_DEFINE_TYPE_INTRUSIVE). */
  function SensorToJson(s: SensorInstance): Json {
    JObject(map["sensorId" := JString(s.sensorId), "label" := JString(s.sensorLabel)])
  }

  /** `from_json(sensor_instance)`: both keys required, both strings. */
  function SensorFromJson(j: Json): (r: Result<SensorInstance, JsonError>)
    ensures r.Ok? <==> (Contains(j, "sensorId") && j.fields["sensorId"].JString?
                        && Contains(j, "label") && j.fields["label"].JString?)
    ensures r.Ok? ==> SensorToJson(r.value) == JObject(map["sensorId" := j.fields["sensorId"], "label" := j.fields["label"]])
  {
    var id :- StringAt(j, "sensorId");
    var sensorLabel :- StringAt(j, "label");
    Ok(SensorInstance(id, sensorLabel))
  }

  lemma SensorRoundTrip(s: SensorInstance)
    ensures SensorFromJson(SensorToJson(s)) == Ok(s)
  {
  }

  /** What `to_json(list_sensors_response)` builds: nothing pushed leaves the value null. */
  function SensorsJson(sensors: seq<SensorInstance>): Json {
    if sensors == [] then JNull
    else JArray(seq(|sensors|, i requires 0 <= i < |sensors| => SensorToJson(sensors[i])))
  }

  /** `to_json(list_sensors_response)`: `push_back` of every sensor, in order. */
  method ListSensorsToJson(sensors: seq<SensorInstance>) returns (j: Json)
    ensures j == SensorsJson(sensors)
  {
    j := JNull;
    var i := 0;
    while i < |sensors|
      invariant 0 <= i <= |sensors|
      invariant j == SensorsJson(sensors[..i])
    {
      var pushed := PushBack(j, SensorToJson(sensors[i]));
      j := pushed.value;
      i := i + 1;
      assert sensors[..i] == sensors[..i - 1] + [sensors[i - 1]];
    }
    assert sensors[..i] == sensors;
  }

  /** Appending the decoded elements, in order, to the sensors already held; the first bad element aborts. */
  function AppendSensors(es: seq<Json>, acc: seq<SensorInstance>): (r: Result<seq<SensorInstance>, JsonError>)
    ensures r.Ok? ==> |r.value| == |acc| + |es| && r.value[..|acc|] == acc
    ensures r.Ok? <==> forall i :: 0 <= i < |es| ==> SensorFromJson(es[i]).Ok?
    ensures r.Ok? ==> forall i :: 0 <= i < |es| ==> r.value[|acc| + i] == SensorFromJson(es[i]).value
    decreases |es|
  {
    if es == [] then Ok(acc)
    else
      match SensorFromJson(es[0])
      case Err(e) => Err(e)
      case Ok(s) =>
        var r := AppendSensors(es[1..], acc + [s]);
        assert r.Ok? ==> r.value[..|acc|] == (acc + [s])[..|acc|];
        assert r.Ok? ==> r.value[|acc|] == (acc + [s])[|acc|];
        assert (forall i :: 0 <= i < |es[1..]| ==> SensorFromJson(es[1..][i]).Ok?)
          <==> (forall i :: 1 <= i < |es| ==> SensorFromJson(es[i]).Ok?);
        r
  }

  /** `from_json(list_sensors_response)`: every visited element is appended to `r.sensors`. */
  method ListSensorsFromJson(j: Json, sensors: seq<SensorInstance>) returns (r: Result<seq<SensorInstance>, JsonError>)
    ensures r == AppendSensors(Elements(j), sensors)
  {
    var es := Elements(j);
    var acc := sensors;
    var i := 0;
    while i < |es|
      invariant 0 <= i <= |es|
      invariant AppendSensors(es, sensors) == AppendSensors(es[i..], acc)
    {
      assert es[i..][1..] == es[i + 1..];
      var s := SensorFromJson(es[i]);
      if s.Err? {
        return Err(s.error);
      }
      acc := acc + [s.value];
      i := i + 1;
    }
    return Ok(acc);
  }

  /** Decoding the encoding of a sensor list into an empty response gives the list back. */
  lemma {:induction false} SensorsRoundTrip(sensors: seq<SensorInstance>, acc: seq<SensorInstance>)
    ensures AppendSensors(Elements(SensorsJson(sensors)), acc) == Ok(acc + sensors)
    decreases |sensors|
  {
    if sensors != [] {
      var es := Elements(SensorsJson(sensors));
      assert es == SensorsJson(sensors).items;
      assert es[0] == SensorToJson(sensors[0]);
      SensorRoundTrip(sensors[0]);
      assert es[1..] == Elements(SensorsJson(sensors[1..]));
      SensorsRoundTrip(sensors[1..], acc + [sensors[0]]);
      assert AppendSensors(es, acc) == AppendSensors(es[1..], acc + [sensors[0]]);
      assert acc + [sensors[0]] + sensors[1..] == acc + sensors;
    } else {
      assert acc + sensors == acc;
    }
  }

  // ----- get_root_cause_response ---------------------------------------------

  /** `get<float>()` of one element: numbers, and booleans as 1 or 0. */
  function NumberFromJson(j: Json): (r: Result<int, JsonError>)
    ensures r.Ok? <==> j.JNumber? || j.JBool?
    ensures j.JNumber? ==> r == Ok(j.n)
  {
    match j
    case JNumber(n) => Ok(n)
    case JBool(b) => Ok(if b then 1 else 0)
    case _ => Err(TypeError("number"))
  }

  /** `get<std::vector<float>>()`: an array of numbers. */
  function VectorFromJson(j: Json): (r: Result<seq<int>, JsonError>)
    ensures r.Ok? <==> j.JArray? && forall i :: 0 <= i < |j.items| ==> NumberFromJson(j.items[i]).Ok?
    ensures r.Ok? ==> (|r.value| == |j.items|
      && forall i :: 0 <= i < |j.items| ==> r.value[i] == NumberFromJson(j.items[i]).value)
    decreases if j.JArray? then |j.items| else 0
  {
    if !j.JArray? then Err(TypeError("array"))
    else if j.items == [] then Ok([])
    else
      var x :- NumberFromJson(j.items[0]);
      var tail := JArray(j.items[1..]);
      assert forall i :: 1 <= i < |j.items| ==> j.items[i] == tail.items[i - 1];
      var rest :- VectorFromJson(tail);
      Ok([x] + rest)
  }

  function VectorToJson(v: seq<int>): Json {
    JArray(seq(|v|, i requires 0 <= i < |v| => JNumber(v[i])))
  }

  lemma {:induction false} VectorRoundTrip(v: seq<int>)
    ensures VectorFromJson(VectorToJson(v)) == Ok(v)
    decreases |v|
  {
    if v != [] {
      assert VectorToJson(v).items[1..] == VectorToJson(v[1..]).items;
      VectorRoundTrip(v[1..]);
      assert [v[0]] + v[1..] == v;
    }
  }

  /** What `to_json(get_root_cause_response)` builds. */
  function RootCauseJson(rows: seq<seq<int>>): Json {
    if rows == [] then JNull
    else JArray(seq(|rows|, i requires 0 <= i < |rows| => VectorToJson(rows[i])))
  }

  /** `to_json(get_root_cause_response)`: `push_back` of every row, in order. */
  method RootCauseToJson(rows: seq<seq<int>>) returns (j: Json)
    ensures j == RootCauseJson(rows)
  {
    j := JNull;
    var i := 0;
    while i < |rows|
      invariant 0 <= i <= |rows|
      invariant j == RootCauseJson(rows[..i])
    {
      var pushed := PushBack(j, VectorToJson(rows[i]));
      j := pushed.value;
      i := i + 1;
      assert rows[..i] == rows[..i - 1] + [rows[i - 1]];
    }
    assert rows[..i] == rows;
  }

  /** Appending the decoded rows, in order, to the rows already held; the first bad element aborts. */
  function AppendRows(es: seq<Json>, acc: seq<seq<int>>): (r: Result<seq<seq<int>>, JsonError>)
    ensures r.Ok? ==> |r.value| == |acc| + |es| && r.value[..|acc|] == acc
    ensures r.Ok? <==> forall i :: 0 <= i < |es| ==> VectorFromJson(es[i]).Ok?
    ensures r.Ok? ==> forall i :: 0 <= i < |es| ==> r.value[|acc| + i] == VectorFromJson(es[i]).value
    decreases |es|
  {
    if es == [] then Ok(acc)
    else
      match VectorFromJson(es[0])
      case Err(e) => Err(e)
      case Ok(row) =>
        var r := AppendRows(es[1..], acc + [row]);
        assert r.Ok? ==> r.value[..|acc|] == (acc + [row])[..|acc|];
        assert r.Ok? ==> r.value[|acc|] == (acc + [row])[|acc|];
        assert (forall i :: 0 <= i < |es[1..]| ==> VectorFromJson(es[1..][i]).Ok?)
          <==> (forall i :: 1 <= i < |es| ==> VectorFromJson(es[i]).Ok?);
        r
  }

  /** `from_json(get_root_cause_response)`: every visited element, as a vector, is appended to `r.root_cause`. */
  method RootCauseFromJson(j: Json, rows: seq<seq<int>>) returns (r: Result<seq<seq<int>>, JsonError>)
    ensures r == AppendRows(Elements(j), rows)
  {
    var es := Elements(j);
    var acc := rows;
    var i := 0;
    while i < |es|
      invariant 0 <= i <= |es|
      invariant AppendRows(es, rows) == AppendRows(es[i..], acc)
    {
      assert es[i..][1..] == es[i + 1..];
      var row := VectorFromJson(es[i]);
      if row.Err? {
        return Err(row.error);
      }
      acc := acc + [row.value];
      i := i + 1;
    }
    return Ok(acc);
  }

  lemma {:induction false} RootCauseRoundTrip(rows: seq<seq<int>>, acc: seq<seq<int>>)
    ensures AppendRows(Elements(RootCauseJson(rows)), acc) == Ok(acc + rows)
    decreases |rows|
  {
    if rows != [] {
      var es := Elements(RootCauseJson(rows));
      assert es == RootCauseJson(rows).items;
      assert es[0] == VectorToJson(rows[0]);
      VectorRoundTrip(rows[0]);
      assert es[1..] == Elements(RootCauseJson(rows[1..]));
      RootCauseRoundTrip(rows[1..], acc + [rows[0]]);
      assert AppendRows(es, acc) == AppendRows(es[1..], acc + [rows[0]]);
      assert acc + [rows[0]] + rows[1..] == acc + rows;
    } else {
      assert acc + rows == acc;
    }
  }

  // ----- pretrain_sensor_response and get_pretrain_response -------------------

  /** The state/message pair of `pretrain_sensor_response` and `get_pretrain_response`, which map to JSON identically. */
  datatype PretrainState = PretrainState(state: string, message: string)

  /** `to_json`: "message" is written only when non-empty. */
  function PretrainToJson(r: PretrainState): (j: Json)
    ensures j.JObject? && "state" in j.fields && j.fields["state"] == JString(r.state)
    ensures ("message" in j.fields) <==> r.message != ""
    ensures j.fields.Keys <= {"state", "message"}
  {
    if r.message != "" then JObject(map["state" := JString(r.state), "message" := JString(r.message)])
    else JObject(map["state" := JString(r.state)])
  }

  /** `from_json(j, r)`: "state" is required, "message" read only when present (otherwise `r.message` is kept). */
  function PretrainFromJson(j: Json, r: PretrainState): (res: Result<PretrainState, JsonError>)
    ensures res.Ok? <==> (Contains(j, "state") && j.fields["state"].JString?
                          && ("message" in j.fields ==> j.fields["message"].JString?))
    ensures res.Ok? ==> res.value.state == j.fields["state"].s
    ensures res.Ok? ==> res.value.message == if "message" in j.fields then j.fields["message"].s else r.message
  {
    var state :- StringAt(j, "state");
    if Contains(j, "message") then
      var message :- StringAt(j, "message");
      Ok(PretrainState(state, message))
    else
      Ok(PretrainState(state, r.message))
  }

  /** Decoding what was encoded into a value-initialised record gives the record back. */
  lemma PretrainRoundTrip(r: PretrainState)
    ensures PretrainFromJson(PretrainToJson(r), PretrainState("", "")) == Ok(r)
  {
  }

  // ----- get_version_response --------------------------------------------------

  datatype Version = Version(builder: string, expertApi: string, expertCommon: string, nanoSecure: string,
                             release: string, swaggerUi: string, apiVersion: string)

  const VersionKeys: set<string> := {"builder", "expert-api", "expert-common", "nano-secure", "release", "swagger-ui", "api-version"}

  /** `to_json(get_version_response)`: fields renamed to the server's dashed keys. */
  function VersionToJson(v: Version): (j: Json)
    ensures j.JObject? && j.fields.Keys == VersionKeys
    ensures j.fields["builder"] == JString(v.builder) && j.fields["expert-api"] == JString(v.expertApi)
    ensures j.fields["expert-common"] == JString(v.expertCommon) && j.fields["nano-secure"] == JString(v.nanoSecure)
    ensures j.fields["release"] == JString(v.release) && j.fields["swagger-ui"] == JString(v.swaggerUi)
    ensures j.fields["api-version"] == JString(v.apiVersion)
  {
    JObject(map["builder" := JString(v.builder), "expert-api" := JString(v.expertApi),
                "expert-common" := JString(v.expertCommon), "nano-secure" := JString(v.nanoSecure),
                "release" := JString(v.release), "swagger-ui" := JString(v.swaggerUi),
                "api-version" := JString(v.apiVersion)])
  }

  /** `from_json(get_version_response)`: all seven keys required. */
  function VersionFromJson(j: Json): (r: Result<Version, JsonError>)
    ensures r.Ok? <==> j.JObject? && VersionKeys <= j.fields.Keys && forall k :: k in VersionKeys ==> j.fields[k].JString?
    ensures r.Ok? ==> r.value.builder == j.fields["builder"].s && r.value.expertApi == j.fields["expert-api"].s
    ensures r.Ok? ==> r.value.expertCommon == j.fields["expert-common"].s && r.value.nanoSecure == j.fields["nano-secure"].s
    ensures r.Ok? ==> r.value.release == j.fields["release"].s && r.value.swaggerUi == j.fields["swagger-ui"].s
    ensures r.Ok? ==> r.value.apiVersion == j.fields["api-version"].s
  {
    var builder :- StringAt(j, "builder");
    var expertApi :- StringAt(j, "expert-api");
    var expertCommon :- StringAt(j, "expert-common");
    var nanoSecure :- StringAt(j, "nano-secure");
    var release :- StringAt(j, "release");
    var swaggerUi :- StringAt(j, "swagger-ui");
    var apiVersion :- StringAt(j, "api-version");
    Ok(Version(builder, expertApi, expertCommon, nanoSecure, release, swaggerUi, apiVersion))
  }

  /** `from_json` inverts `to_json`. */
  lemma VersionRoundTrip(v: Version)
    ensures VersionFromJson(VersionToJson(v)) == Ok(v)
  {
  }

  /** And `to_json` inverts `from_json` on every object holding exactly the seven keys. */
  lemma VersionRoundTripJson(j: Json)
    requires VersionFromJson(j).Ok? && j.fields.Keys == VersionKeys
    ensures VersionToJson(VersionFromJson(j).value) == j
  {
    var v := VersionFromJson(j).value;
    assert VersionToJson(v).fields == j.fields;
  }

  // ----- authentication records -------------------------------------------------

  /** The token grant of the OAuth exchange. */
  datatype AuthResponse = AuthResponse(idToken: string, expiresIn: string, refreshToken: string)

  const EmptyAuth := AuthResponse("", "", "")

  /** `to_json` of the credentials posted to the OAuth endpoint (`auth_request`, `PostAuth2Request`). */
  function AuthRequestJson(username: string, password: string): (j: Json)
    ensures j.JObject? && j.fields.Keys == {"username", "password"}
    ensures j.fields["username"] == JString(username) && j.fields["password"] == JString(password)
  {
    JObject(map["username" := JString(username), "password" := JString(password)])
  }

  /** `from_json(auth_response)` (NLOHMANN_DEFINE_TYPE_INTRUSIVE): all three keys required. */
  function AuthFromJson(j: Json): (r: Result<AuthResponse, JsonError>)
    ensures r.Ok? <==> (&& Contains(j, "idToken") && j.fields["idToken"].JString?
                        && Contains(j, "expiresIn") && j.fields["expiresIn"].JString?
                        && Contains(j, "refreshToken") && j.fields["refreshToken"].JString?)
    ensures r.Ok? ==> r.value == AuthResponse(j.fields["idToken"].s, j.fields["expiresIn"].s, j.fields["refreshToken"].s)
  {
    var idToken :- StringAt(j, "idToken");
    var expiresIn :- StringAt(j, "expiresIn");
    var refreshToken :- StringAt(j, "refreshToken");
    Ok(AuthResponse(idToken, expiresIn, refreshToken))
  }

  // ----- records generated by generate.py -------------------------------------

  /**
   * The generated `from_json` of one string property: it is converted to a string
   * only when the object holds the key and its value is not empty (null, `[]` or
   * `{}`); otherwise the member keeps its value.
   */
  function GeneratedString(j: Json, key: string, prior: string): (r: Result<string, JsonError>)
    ensures !Contains(j, key) ==> r == Ok(prior)
    ensures Contains(j, key) && j.fields[key].JString? ==> r == Ok(j.fields[key].s)
    ensures Contains(j, key) && j.fields[key].JNull? ==> r == Ok(prior)
    ensures r.Err? <==> Contains(j, key) && !IsEmpty(j.fields[key]) && !j.fields[key].JString?
  {
    if Contains(j, key) && !IsEmpty(j.fields[key]) then AsString(j.fields[key]) else Ok(prior)
  }

  /** A property the generated `from_json` can read: absent, empty, or a string. */
  predicate GeneratedReadable(j: Json, key: string) {
    !Contains(j, key) || IsEmpty(j.fields[key]) || j.fields[key].JString?
  }

  /** What a property of a value-initialised generated record ends up holding: the key's string, or "". */
  function StringOrEmpty(j: Json, key: string): string {
    if Contains(j, key) && j.fields[key].JString? then j.fields[key].s else ""
  }

  /** `PostAuth2Response` as generated: idToken, expiresIn and refreshToken, each optional. */
  function GeneratedAuthFromJson(j: Json): (r: Result<AuthResponse, JsonError>)
    ensures !j.JObject? ==> r == Ok(EmptyAuth)
    ensures r.Ok? && !Contains(j, "expiresIn") ==> r.value.expiresIn == ""
  {
    var idToken :- GeneratedString(j, "idToken", "");
    var expiresIn :- GeneratedString(j, "expiresIn", "");
    var refreshToken :- GeneratedString(j, "refreshToken", "");
    Ok(AuthResponse(idToken, expiresIn, refreshToken))
  }

  /** The generated grant decode fails only on a non-empty non-string property, and otherwise holds each key's string. */
  lemma GeneratedAuthFields(j: Json)
    ensures var r := GeneratedAuthFromJson(j);
      && (r.Ok? <==> GeneratedReadable(j, "idToken") && GeneratedReadable(j, "expiresIn")
                     && GeneratedReadable(j, "refreshToken"))
      && (r.Ok? ==> r.value == AuthResponse(StringOrEmpty(j, "idToken"), StringOrEmpty(j, "expiresIn"),
                                            StringOrEmpty(j, "refreshToken")))
      && (r.Err? ==> r.error.TypeError?)
  {
  }

  /** The pretrain progress record of the current revision (`PostPretrainResponse`). */
  datatype PretrainProgress = PretrainProgress(state: string, message: string, amberChunk: string, amberTransaction: string)

  const EmptyProgress := PretrainProgress("", "", "", "")

  /** `PostPretrainResponse` as generated, decoded into a value-initialised record. */
  function GeneratedProgressFromJson(j: Json): (r: Result<PretrainProgress, JsonError>)
    ensures r.Ok? && Contains(j, "state") && j.fields["state"].JString? ==> r.value.state == j.fields["state"].s
    ensures r.Ok? && !Contains(j, "state") ==> r.value.state == ""
  {
    var state :- GeneratedString(j, "state", "");
    var message :- GeneratedString(j, "message", "");
    var amberChunk :- GeneratedString(j, "amberChunk", "");
    var amberTransaction :- GeneratedString(j, "amberTransaction", "");
    Ok(PretrainProgress(state, message, amberChunk, amberTransaction))
  }

  /** The generated progress decode fails only on a non-empty non-string property, and otherwise holds each key's string. */
  lemma GeneratedProgressFields(j: Json)
    ensures var r := GeneratedProgressFromJson(j);
      && (r.Ok? <==> GeneratedReadable(j, "state") && GeneratedReadable(j, "message")
                     && GeneratedReadable(j, "amberChunk") && GeneratedReadable(j, "amberTransaction"))
      && (r.Ok? ==> r.value == PretrainProgress(StringOrEmpty(j, "state"), StringOrEmpty(j, "message"),
                                                StringOrEmpty(j, "amberChunk"), StringOrEmpty(j, "amberTransaction")))
      && (r.Err? ==> r.error.TypeError?)
  {
  }

  /** `GetPretrainResponse` as generated (state and message), decoded into a value-initialised record. */
  function GeneratedStateFromJson(j: Json): (r: Result<PretrainState, JsonError>)
    ensures r.Ok? && !Contains(j, "state") ==> r.value.state == ""
    ensures r.Ok? && Contains(j, "state") && j.fields["state"].JString? ==> r.value.state == j.fields["state"].s
  {
    var state :- GeneratedString(j, "state", "");
    var message :- GeneratedString(j, "message", "");
    Ok(PretrainState(state, message))
  }

  /** The generated state decode fails only on a non-empty non-string property, and otherwise holds each key's string. */
  lemma GeneratedStateFields(j: Json)
    ensures var r := GeneratedStateFromJson(j);
      && (r.Ok? <==> GeneratedReadable(j, "state") && GeneratedReadable(j, "message"))
      && (r.Ok? ==> r.value == PretrainState(StringOrEmpty(j, "state"), StringOrEmpty(j, "message")))
      && (r.Err? ==> r.error.TypeError?)
  {
  }
}
