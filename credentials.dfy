/**
 * How a client resolves its credentials and TLS settings when it is initialised
 * (`amber_init` in src/amber_sdk.cpp and the older constructor in amber_sdk.cpp):
 * the license file and profile id, the profile read from the file, the
 * environment overrides, the OAuth server fallback, the TLS settings and the
 * final checks. The environment, the shell expansion of the file name and the
 * contents of the file are parameters.
 */
module Credentials {
  import opened Wrappers
  import opened Strings
  import opened Json
  import opened Models

  /** The license file whose absence is tolerated. */
  const DefaultLicenseFile: string := "~/.Amber.license"

  /** The two revisions of the client: src/amber_sdk.cpp and the older amber_sdk.cpp. */
  datatype Revision = Current | Legacy

  /** What opening and parsing a license file yields. */
  datatype LicenseFile = Unopenable | Unparsable | Parsed(contents: Json)

  /** The client's TLS options. */
  datatype Ssl = Ssl(verify: bool, cert: string, cainfo: string)

  /** Value-initialised TLS options. */
  const NoSsl := Ssl(false, "", "")

  /** Why initialisation throws. */
  datatype InitError =
    | NotFormatted                                      // "json not formatted correctly"
    | IdNotFound(licenseId: string, licenseFile: string) // "license_id '%s' not found in '%s'"
    | EntryKeyMissing(key: string)                      // the profile's out_of_range, rethrown as amber_except
    | EntryTypeError(expected: string)                  // the profile's type_error, which is not caught
    | FileNotFound(licenseFile: string)                 // "license_file '%s' not found"
    | NotSpecified(field: string)                       // "username not specified", ...

  /** The client fields initialisation writes. */
  datatype Profile = Profile(licenseId: string, licenseFile: string, license: LicenseEntry, ssl: Ssl)

  /** A freshly constructed client's fields. */
  const EmptyProfile := Profile("", "", EmptyLicense, NoSsl)

  /** The arguments of `amber_init`. */
  datatype InitArgs = InitArgs(licenseId: string, licenseFile: string, verifyCert: bool, cert: string, cainfo: string)

  /** The process environment: a variable is set exactly when it is a key. */
  type Env = map<string, string>

  /** `getenv(name) ? getenv(name) : fallback`: a set variable wins even when it is empty. */
  function Getenv(env: Env, name: string, fallback: string): string {
    if name in env then env[name] else fallback
  }

  /**
   * Reading the profile `id` from the license file at `path`. An unopenable file
   * is tolerated, keeping `prior`, only when the name the revision compares is the
   * default file: the expanded path in the current revision, the raw argument in
   * the legacy one.
   */
  function LoadLicense(rev: Revision, rawFile: string, path: string, id: string, contents: LicenseFile,
                       prior: LicenseEntry): Result<LicenseEntry, InitError>
  {
    match contents
    case Unparsable => Err(NotFormatted)
    case Parsed(j) =>
      if !Contains(j, id) then Err(IdNotFound(id, path))
      else
        (match LicenseFromJson(j.fields[id], EmptyLicense)
         case Ok(l) => Ok(l)
         case Err(OutOfRange(k)) => Err(EntryKeyMissing(k))
         case Err(TypeError(t)) => Err(EntryTypeError(t)))
    case Unopenable =>
      var compared := if rev == Current then path else rawFile;
      if compared == DefaultLicenseFile then Ok(prior) else Err(FileNotFound(compared))
  }

  /** Each set `AMBER_*` variable replaces its own field; an empty OAuth server then becomes the server. */
  function ApplyOverrides(env: Env, l: LicenseEntry): LicenseEntry {
    var username := Getenv(env, "AMBER_USERNAME", l.username);
    var password := Getenv(env, "AMBER_PASSWORD", l.password);
    var server := Getenv(env, "AMBER_SERVER", l.server);
    var oauth := Getenv(env, "AMBER_OAUTH_SERVER", l.oauthServer);
    LicenseEntry(username, password, server, if |oauth| == 0 then server else oauth)
  }

  /**
   * The TLS options: the certificate from `AMBER_SSL_CERT` or the argument; then
   * `AMBER_SSL_VERIFY`, when set, turns verification on, except that "false" (in
   * any case) turns it off and clears the CA bundle, and any value but "true"
   * (in any case) becomes the CA bundle.
   */
  function ResolveSsl(env: Env, args: InitArgs): Ssl {
    var cert := Getenv(env, "AMBER_SSL_CERT", args.cert);
    if "AMBER_SSL_VERIFY" in env then
      var v := env["AMBER_SSL_VERIFY"];
      if EqualsIgnoreCase("false", v) then Ssl(false, cert, "")
      else if !EqualsIgnoreCase("true", v) then Ssl(true, cert, v)
      else Ssl(true, cert, args.cainfo)
    else Ssl(args.verifyCert, cert, args.cainfo)
  }

  /** The final checks, in order: username, password, server. */
  function CheckLicense(l: LicenseEntry): Outcome<InitError> {
    if l.username == "" then Fail(NotSpecified("username"))
    else if l.password == "" then Fail(NotSpecified("password"))
    else if l.server == "" then Fail(NotSpecified("server"))
    else Pass
  }

  /** The license file the client uses: `AMBER_LICENSE_FILE` or the argument. */
  function EffectiveFile(env: Env, args: InitArgs): string {
    Getenv(env, "AMBER_LICENSE_FILE", args.licenseFile)
  }

  /** The profile id the client uses: `AMBER_LICENSE_ID` or the argument. */
  function EffectiveId(env: Env, args: InitArgs): string {
    Getenv(env, "AMBER_LICENSE_ID", args.licenseId)
  }

  /** The path stored in the client: the file name, shell-expanded unless it is empty. */
  function StoredPath(env: Env, args: InitArgs, expand: string -> string): string {
    var file := EffectiveFile(env, args);
    if file == "" then file else expand(file)
  }

  /**
   * Initialisation: the fields it leaves in the client (`prior` holds their values
   * before) and whether it throws. A throw while reading the file leaves the
   * profile and TLS options as they were; a throw in the final checks comes after
   * every field is written.
   */
  function Resolve(rev: Revision, args: InitArgs, env: Env, expand: string -> string,
                   read: string -> LicenseFile, prior: Profile): (Profile, Outcome<InitError>)
  {
    var file := EffectiveFile(env, args);
    var id := EffectiveId(env, args);
    var path := StoredPath(env, args, expand);
    var loaded := if file == "" then Ok(prior.license) else LoadLicense(rev, args.licenseFile, path, id, read(path), prior.license);
    match loaded
    case Err(e) => (Profile(id, path, prior.license, prior.ssl), Fail(e))
    case Ok(l) =>
      var license := ApplyOverrides(env, l);
      (Profile(id, path, license, ResolveSsl(env, args)), CheckLicense(license))
  }

  /** Resolution in two stages: reading the file, then (when that succeeds) the overrides, TLS options and checks. */
  lemma ResolveStages(rev: Revision, args: InitArgs, env: Env, expand: string -> string,
                      read: string -> LicenseFile, prior: Profile, loaded: Result<LicenseEntry, InitError>)
    requires loaded == if EffectiveFile(env, args) == "" then Ok(prior.license)
                       else LoadLicense(rev, args.licenseFile, StoredPath(env, args, expand), EffectiveId(env, args),
                                        read(StoredPath(env, args, expand)), prior.license)
    ensures loaded.Err? ==> Resolve(rev, args, env, expand, read, prior)
                            == (Profile(EffectiveId(env, args), StoredPath(env, args, expand), prior.license, prior.ssl),
                                Fail(loaded.error))
    ensures loaded.Ok? ==> Resolve(rev, args, env, expand, read, prior)
                           == (Profile(EffectiveId(env, args), StoredPath(env, args, expand), ApplyOverrides(env, loaded.value),
                                       ResolveSsl(env, args)),
                               CheckLicense(ApplyOverrides(env, loaded.value)))
  {
  }

  // ----- properties ------------------------------------------------------------------

  /** Each override replaces exactly its own field, and the OAuth server is never left empty when the server is not. */
  lemma OverridesReplaceOwnField(env: Env, l: LicenseEntry)
    ensures var r := ApplyOverrides(env, l);
      && r.username == (if "AMBER_USERNAME" in env then env["AMBER_USERNAME"] else l.username)
      && r.password == (if "AMBER_PASSWORD" in env then env["AMBER_PASSWORD"] else l.password)
      && r.server == (if "AMBER_SERVER" in env then env["AMBER_SERVER"] else l.server)
      && (r.server != "" ==> r.oauthServer != "")
      && ("AMBER_OAUTH_SERVER" in env && env["AMBER_OAUTH_SERVER"] != "" ==> r.oauthServer == env["AMBER_OAUTH_SERVER"])
      && ("AMBER_OAUTH_SERVER" !in env && l.oauthServer != "" ==> r.oauthServer == l.oauthServer)
  {
  }

  /** Initialisation succeeds only with a username, a password and a server, and then the OAuth server is set. */
  lemma ResolvedProfileComplete(rev: Revision, args: InitArgs, env: Env, expand: string -> string,
                                read: string -> LicenseFile, prior: Profile)
    ensures var (p, o) := Resolve(rev, args, env, expand, read, prior);
      o == Pass ==> p.license.username != "" && p.license.password != "" && p.license.server != ""
                    && p.license.oauthServer != ""
  {
  }

  /** An empty license file name skips the file: the profile is the one the client had, with the overrides applied. */
  lemma EmptyFileSkipped(rev: Revision, args: InitArgs, env: Env, expand: string -> string,
                         read: string -> LicenseFile, prior: Profile)
    requires EffectiveFile(env, args) == ""
    ensures Resolve(rev, args, env, expand, read, prior).0.license == ApplyOverrides(env, prior.license)
    ensures Resolve(rev, args, env, expand, read, prior).0.licenseFile == ""
  {
  }

  /**
   * A file that cannot be opened throws exactly when the name the revision
   * compares is not the default: the expanded path in the current revision, the
   * raw argument in the legacy one (neither the environment override nor the
   * expansion counts there).
   */
  lemma MissingFileTolerance(rev: Revision, args: InitArgs, env: Env, expand: string -> string,
                             read: string -> LicenseFile, prior: Profile)
    requires EffectiveFile(env, args) != ""
    requires read(StoredPath(env, args, expand)) == Unopenable
    ensures var compared := if rev == Current then StoredPath(env, args, expand) else args.licenseFile;
      var (p, o) := Resolve(rev, args, env, expand, read, prior);
      && (o.Fail? && o.error.FileNotFound? <==> compared != DefaultLicenseFile)
      && (compared == DefaultLicenseFile ==> p.license == ApplyOverrides(env, prior.license))
  {
  }

  /**
   * The two revisions disagree on the no-argument defaults: when "~" expands and
   * no license file exists, the current revision throws even though the
   * environment supplies every credential, while the legacy one accepts them.
   */
  lemma DefaultFileQuirk(expand: string -> string, read: string -> LicenseFile)
    requires expand(DefaultLicenseFile) == "/home/amber/.Amber.license"
    requires read("/home/amber/.Amber.license") == Unopenable
    ensures var env := map["AMBER_USERNAME" := "u", "AMBER_PASSWORD" := "p", "AMBER_SERVER" := "https://s"];
      var args := InitArgs("default", DefaultLicenseFile, true, "", "");
      && Resolve(Current, args, env, expand, read, EmptyProfile).1 == Fail(FileNotFound("/home/amber/.Amber.license"))
      && Resolve(Legacy, args, env, expand, read, EmptyProfile).1 == Pass
      && Resolve(Legacy, args, env, expand, read, EmptyProfile).0.license == LicenseEntry("u", "p", "https://s", "https://s")
  {
    var env := map["AMBER_USERNAME" := "u", "AMBER_PASSWORD" := "p", "AMBER_SERVER" := "https://s"];
    var args := InitArgs("default", DefaultLicenseFile, true, "", "");
    assert "AMBER_LICENSE_FILE" !in env;
    assert StoredPath(env, args, expand) == "/home/amber/.Amber.license";
    assert "/home/amber/.Amber.license" != DefaultLicenseFile;
  }

  /** A parsed file without the profile throws "license_id not found", naming the id and the stored path. */
  lemma MissingProfile(rev: Revision, args: InitArgs, env: Env, expand: string -> string,
                       read: string -> LicenseFile, prior: Profile, j: Json)
    requires EffectiveFile(env, args) != ""
    requires read(StoredPath(env, args, expand)) == Parsed(j) && !Contains(j, EffectiveId(env, args))
    ensures Resolve(rev, args, env, expand, read, prior).1 == Fail(IdNotFound(EffectiveId(env, args), StoredPath(env, args, expand)))
  {
  }

  /**
   * A profile found in the file is read into a fresh `license_entry`: with no
   * overrides set, the client holds it, with the OAuth server falling back to the
   * server; a profile without "username" throws.
   */
  lemma ProfileFromFile(rev: Revision, args: InitArgs, env: Env, expand: string -> string,
                        read: string -> LicenseFile, prior: Profile, j: Json, u: string, pw: string, s: string)
    requires EffectiveFile(env, args) != ""
    requires read(StoredPath(env, args, expand)) == Parsed(j) && Contains(j, EffectiveId(env, args))
    requires j.fields[EffectiveId(env, args)] == JObject(map["username" := JString(u), "password" := JString(pw), "server" := JString(s)])
    requires forall name :: name in env ==> name in {"AMBER_LICENSE_FILE", "AMBER_LICENSE_ID"}
    ensures Resolve(rev, args, env, expand, read, prior).0.license == LicenseEntry(u, pw, s, s)
    ensures Resolve(rev, args, env, expand, read, prior).1 == CheckLicense(LicenseEntry(u, pw, s, s))
  {
    var entry := j.fields[EffectiveId(env, args)];
    assert "oauth-server" !in entry.fields;
    assert LicenseFromJson(entry, EmptyLicense) == Ok(LicenseEntry(u, pw, s, ""));
    assert "AMBER_USERNAME" !in env && "AMBER_PASSWORD" !in env && "AMBER_SERVER" !in env && "AMBER_OAUTH_SERVER" !in env;
  }

  /** A profile that lacks "username" throws the `out_of_range` of `at("username")`, rethrown. */
  lemma ProfileWithoutUsername(rev: Revision, args: InitArgs, env: Env, expand: string -> string,
                               read: string -> LicenseFile, prior: Profile, j: Json)
    requires EffectiveFile(env, args) != ""
    requires read(StoredPath(env, args, expand)) == Parsed(j) && Contains(j, EffectiveId(env, args))
    requires j.fields[EffectiveId(env, args)].JObject? && "username" !in j.fields[EffectiveId(env, args)].fields
    ensures Resolve(rev, args, env, expand, read, prior).1 == Fail(EntryKeyMissing("username"))
  {
  }

  /** The TLS rules: `AMBER_SSL_VERIFY` unset keeps the arguments; "false" turns verification off; anything else turns it on. */
  lemma SslRules(env: Env, args: InitArgs)
    ensures var ssl := ResolveSsl(env, args);
      && ssl.cert == Getenv(env, "AMBER_SSL_CERT", args.cert)
      && ("AMBER_SSL_VERIFY" !in env ==> ssl.verify == args.verifyCert && ssl.cainfo == args.cainfo)
      && ("AMBER_SSL_VERIFY" in env ==> (ssl.verify <==> !EqualsIgnoreCase("false", env["AMBER_SSL_VERIFY"])))
      && ("AMBER_SSL_VERIFY" in env && EqualsIgnoreCase("false", env["AMBER_SSL_VERIFY"]) ==> ssl.cainfo == "")
      && ("AMBER_SSL_VERIFY" in env && EqualsIgnoreCase("true", env["AMBER_SSL_VERIFY"]) ==> ssl.cainfo == args.cainfo)
  {
    if "AMBER_SSL_VERIFY" in env && EqualsIgnoreCase("true", env["AMBER_SSL_VERIFY"]) {
      assert ToLowerAscii(env["AMBER_SSL_VERIFY"][0]) == 't';
      assert !EqualsIgnoreCase("false", env["AMBER_SSL_VERIFY"]);
    }
  }

  /**
   * Credentials from the environment alone, with `AMBER_SSL_VERIFY=false`, as a
   * client built with empty arguments and no license file sees them.
   */
  lemma CredentialsFromEnvironment(rev: Revision, expand: string -> string, read: string -> LicenseFile)
    ensures var env := map["AMBER_USERNAME" := "xyyyAmberUser", "AMBER_PASSWORD" := "bogus_password",
                           "AMBER_SERVER" := "https://temp.amber.boonlogic.com/v1",
                           "AMBER_SSL_CERT" := "bogus_ssl_cert", "AMBER_SSL_VERIFY" := "false"];
      var (p, o) := Resolve(rev, InitArgs("", "", true, "", ""), env, expand, read, EmptyProfile);
      && o == Pass
      && p.license == LicenseEntry("xyyyAmberUser", "bogus_password", "https://temp.amber.boonlogic.com/v1",
                                   "https://temp.amber.boonlogic.com/v1")
      && p.ssl == Ssl(false, "bogus_ssl_cert", "")
  {
    var env := map["AMBER_USERNAME" := "xyyyAmberUser", "AMBER_PASSWORD" := "bogus_password",
                   "AMBER_SERVER" := "https://temp.amber.boonlogic.com/v1",
                   "AMBER_SSL_CERT" := "bogus_ssl_cert", "AMBER_SSL_VERIFY" := "false"];
    assert "AMBER_LICENSE_FILE" !in env && "AMBER_OAUTH_SERVER" !in env;
    assert EqualsIgnoreCase("false", "false");
  }
}
