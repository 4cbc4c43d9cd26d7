# Amber C++ SDK client core, in Dafny

This project models the client core of the Amber C++ SDK, the library that talks
to Boon Logic's Amber anomaly-detection cloud service over HTTPS, and proves
properties of that model. It covers two revisions of the client and the model
generator:

- **The current client** (`amber_sdk` in include/amber_sdk.h and src/amber_sdk.cpp).
  This covers:
  - credential resolution in `amber_init`, from the license file, the `AMBER_*`
    environment variables and the TLS options;
  - the TLS setters;
  - the OAuth token cache in `authenticate`;
  - request assembly and reply handling in `call_api`;
  - the chunked `pretrain_sensor_xl` and the plain `pretrain_sensor`;
  - the text codecs `base64_encode`, `parse_headers` (with `ltrim`, `rtrim` and
    `trim`), `join_uint16_vec` and `join_vec_uint16_vec`.
- **The first revision** (amber_sdk.cpp). This covers:
  - its constructor;
  - the four request helpers `get_request`, `post_request`, `put_request` and
    `delete_request`, with their `last_code` and `last_error` bookkeeping;
  - its own `authenticate`;
  - the non-blocking `pretrain_sensor`;
  - the two root-cause endpoints and their argument checks.
- **The JSON mappings** of include/amber_models.h, plus the decoding rule that
  generate.py writes into every generated record.
- **The generator** generate.py. This covers:
  - name casing;
  - schema-to-C++ type mapping;
  - the order in which swagger definitions are emitted.

How the model is built:

- **Client objects.** Both clients are classes whose fields are the C++ members.
  Every operation is a method that changes them. Each method is proved equal to a
  pure function of the state before the call (`AuthCall`, `ApiCall`, `XlFrom`,
  `PretrainCall`, `Authenticated`, `Posted`, `Pretrained`, ...), and lemmas state
  what those functions promise.
- **The network.** The network is a `Host` object that keeps the history of
  transfers. It answers each transfer with a function of that history, so a run is
  deterministic once the host is fixed.
- **Foreign routines.** `json::dump` and the gzip routine `compress_string` are
  functions held by the host.
- **Inputs.** The clock (`now`), the process environment, shell expansion of the
  license-file name and the contents of the license file are parameters.
- **Exceptions** are values (`Result`, `Outcome`, `Completion`).

Behaviour the model keeps exactly as the code has it, with the lemma that states it:

- **Token reuse.** A token is reused only while
  `now + expires_in - 100 < auth_time`. Because `auth_time` was set to
  `issue time + expires_in`, this means a token is reused for 100 seconds after it
  was issued, whatever its lifetime (`ClientProperties.IssuedTokenWindow`).
- **Default license file.** The current revision tolerates a missing default
  license file only when the *expanded* path equals the literal
  `"~/.Amber.license"`. The first revision compares the raw argument
  (`Credentials.DefaultFileQuirk`).
- **Current `authenticate`.** It marks the token usable before `std::stoul` reads
  the lifetime. When that read throws, the old header and expiry time stay
  (`ClientProperties.IssueOutcomes`).
- **First-revision `authenticate`.** A 200 whose grant does not decode leaves the
  token marked usable. An authenticated helper then sends the OAuth request but
  not its own request, and still reports 200
  (`LegacyProperties.UndecodableGrantReports200`).
- **Reused tokens.** After a reused token, a failed transfer in `call_api` still
  reports code 200 (`ClientProperties.ReusedTokenMasksFailedTransfer`).
- **`is_required`.** It returns `True` before it looks at the schema
  (`Generator.IsRequired`).
- **`std::stoul` with base 0.** It reads a leading `0` as octal and `0x` as
  hexadecimal (`Strings.StoulOctal`, `Strings.StoulHex`).

Standards followed:

- The base64 encoding is that of section 4 of RFC 4648.
- The bearer header is the `Authorization: Bearer` form of section 2.1 of RFC 6750.

## Model

| member | source | states |
|---|---|---|
| Json.At | include/amber_models.h:37-39 | `at(key)` succeeds exactly on an object holding the key and yields its value; a missing key is `out_of_range`, a non-object a type error |
| Json.AsString | include/amber_models.h:37-39 | conversion to `std::string` succeeds exactly on a JSON string and yields that string |
| Json.StringAt | include/amber_models.h:37-39 | `std::string s = j.at(key)` succeeds exactly when the key holds a string, and otherwise fails as `at` does |
| Json.PushBack | include/amber_models.h:90-94 | `push_back` succeeds exactly on null or an array and appends the value (null becomes a one-element array) |
| Json.Elements | include/amber_models.h:96-100 | range-for visits the array items, nothing for null, a scalar itself, and for an object the value of each key in ascending key order |
| Models.LicenseToJson | include/amber_models.h:25-34 | writes exactly the four keys; "oauth-server" is the OAuth server, or the server when that is empty |
| Models.LicenseFromJson | include/amber_models.h:36-45 | succeeds exactly when username, password and server are strings; a missing key throws `out_of_range` naming the first missing one in read order; "oauth-server" is read only when present, otherwise the prior value is kept |
| Models.LicenseRoundTrip | include/amber_models.h:25-45 | decoding what `to_json` wrote gives the profile back, with its OAuth server made explicit |
| Models.LicenseDumpJson | include/amber_models.h:47-51 | `dump` redacts the password to "********" and writes the server as the OAuth server |
| Models.SensorFromJson | include/amber_models.h:76-82 | decoding succeeds exactly when "sensorId" and "label" are strings, and re-encoding gives back those two fields |
| Models.SensorRoundTrip | include/amber_models.h:76-82 | decoding an encoded sensor gives it back |
| Models.ListSensorsToJson | include/amber_models.h:90-94 | the loop of `push_back`s builds the sensors' array, or null for no sensors |
| Models.AppendSensors | include/amber_models.h:96-100 | decoding succeeds exactly when every element decodes; the result is the prior sensors followed by the decoding of each element, in order |
| Models.ListSensorsFromJson | include/amber_models.h:96-100 | the range-for loop appends exactly what `AppendSensors` gives |
| Models.SensorsRoundTrip | include/amber_models.h:90-100 | decoding an encoded list onto prior sensors appends exactly the list |
| Models.NumberFromJson | include/amber_models.h:422-426 | `get<float>` accepts exactly numbers and booleans; a number yields its (integer) value |
| Models.VectorFromJson | include/amber_models.h:422-426 | decoding succeeds exactly on an array whose every item converts to a number, and entry i is item i's number |
| Models.VectorRoundTrip | include/amber_models.h:416-426 | decoding an encoded vector gives it back |
| Models.RootCauseToJson | include/amber_models.h:416-420 | the loop of `push_back`s builds the rows' array |
| Models.AppendRows | include/amber_models.h:422-426 | decoding succeeds exactly when every element is a vector of numbers; the result is the prior rows followed by each element's vector, in order |
| Models.RootCauseFromJson | include/amber_models.h:422-426 | the range-for loop appends exactly what `AppendRows` gives |
| Models.RootCauseRoundTrip | include/amber_models.h:416-426 | decoding encoded rows onto prior rows appends exactly those rows |
| Models.PretrainToJson | include/amber_models.h:298-303 | "state" is always written, "message" exactly when non-empty, nothing else |
| Models.PretrainFromJson | include/amber_models.h:305-310 | succeeds exactly when "state" is a string (and any "message" is one); the message is read when present, otherwise the prior one is kept |
| Models.PretrainRoundTrip | include/amber_models.h:298-310 | decoding an encoded record into an empty one gives the record back |
| Models.VersionToJson | include/amber_models.h:389-397 | writes exactly the seven dashed keys, each holding its own field ("expert-api" the expert API version, "swagger-ui" the swagger UI version, ...) |
| Models.VersionFromJson | include/amber_models.h:399-407 | succeeds exactly on an object with all seven keys as strings, and each field is read from its own dashed key |
| Models.VersionRoundTrip | include/amber_models.h:389-407 | `from_json` inverts `to_json` |
| Models.VersionRoundTripJson | include/amber_models.h:389-407 | `to_json` inverts `from_json` on objects with exactly the seven keys |
| Models.AuthRequestJson | include/amber_models.h:54-62 | the posted credentials are exactly the username and password keys |
| Models.AuthFromJson | include/amber_models.h:64-74 | succeeds exactly when all three keys are strings, and yields them |
| Models.GeneratedString | generate.py:189-192 | a generated property is read only when present and non-empty; absent or null keeps the prior value; a present non-empty non-string fails |
| Models.GeneratedAuthFromJson | generate.py:189-192 | the generated grant decode: a non-object leaves the record empty, and a missing lifetime stays ""; `GeneratedAuthFields` gives every field |
| Models.GeneratedAuthFields | generate.py:189-192 | the grant decode succeeds exactly when idToken, expiresIn and refreshToken are each absent, empty or a string; each field is then its key's string, or ""; a failure is a type error |
| Models.GeneratedProgressFromJson | generate.py:189-192 | the generated pretrain progress decode reads "state" when it is a string and leaves it "" when absent; `GeneratedProgressFields` gives every field |
| Models.GeneratedProgressFields | generate.py:189-192 | the progress decode succeeds exactly when state, message, amberChunk and amberTransaction are each absent, empty or a string; each field is then its key's string, or ""; a failure is a type error |
| Models.GeneratedStateFromJson | generate.py:189-192 | the same for the state/message record: "state" is read when it is a string and stays "" when absent; `GeneratedStateFields` gives both fields |
| Models.GeneratedStateFields | generate.py:189-192 | the state decode succeeds exactly when "state" and "message" are each absent, empty or a string; each field is then its key's string, or ""; a failure is a type error |
| Strings.TrimLeft | src/amber_sdk.cpp:834-840 | `ltrim` never lengthens its input |
| Strings.TrimLeftCuts | src/amber_sdk.cpp:834-840 | `ltrim` removes a prefix made only of white space and stops at the first other character |
| Strings.TrimRight | src/amber_sdk.cpp:842-848 | `rtrim` never lengthens its input |
| Strings.TrimRightCuts | src/amber_sdk.cpp:842-848 | `rtrim` removes a suffix made only of white space and stops at the last other character |
| Strings.TrimIsInfix | src/amber_sdk.cpp:850 | `trim` gives an infix of the input, cuts away only white space, and leaves no white space at either end |
| Strings.TrimIdempotent | src/amber_sdk.cpp:850 | trimming twice is trimming once |
| Strings.ReplaceChar | generate.py:13 | `replace('-', '_')` keeps the length and replaces exactly the hyphens |
| Strings.ReplaceAllAbsent | generate.py:61 | `replace` of a pattern that does not occur changes nothing |
| Strings.ReplaceAllStripsPrefix | generate.py:61 | stripping "#/definitions/" from a reference yields the definition name |
| Strings.NatToString | src/amber_sdk.cpp:453-454 | `std::to_string` gives decimal digits, with a leading zero exactly for 0, and one digit exactly below 10 |
| Strings.NatToStringRoundTrip | src/amber_sdk.cpp:891-893 | reading back the decimal form gives the number |
| Strings.NatToStringInjective | src/amber_sdk.cpp:453-454 | different numbers get different decimal forms |
| Strings.DigitValue | src/amber_sdk.cpp:761 | a decimal digit has its numeric value, and nothing has a value above 36 |
| Strings.DigitRun | src/amber_sdk.cpp:761 | the run of leading digits in a base is maximal: each of its characters is a digit and the next is not |
| Strings.Convert | src/amber_sdk.cpp:761 | a converted value always fits in an `unsigned long` |
| Strings.Stoul | src/amber_sdk.cpp:761 | `std::stoul` never yields a value of 2^64 or more |
| Strings.ConvertWhole | src/amber_sdk.cpp:761 | a string made only of digits that fits converts to its value, negated modulo 2^64 after a '-' |
| Strings.StoulStages | src/amber_sdk.cpp:761 | `stoul` is the sign, then the base prefix, then the conversion of the digit run |
| Strings.StoulReadsDecimal | src/amber_sdk.cpp:761-762 | `stoul` reads back every decimal form `to_string` writes below 2^64 |
| Strings.StoulNegative | src/amber_sdk.cpp:761 | a '-' wraps the value around modulo 2^64 |
| Strings.StoulEmpty | src/amber_sdk.cpp:761 | a grant without a lifetime makes `stoul` throw `invalid_argument` |
| Strings.StoulOctal | src/amber_sdk.cpp:761 | base 0 reads "0100" as octal 64 |
| Strings.StoulHex | src/amber_sdk.cpp:761 | base 0 reads "0x10" as 16 |
| Strings.CString | amber_sdk.cpp:571-572 | the C string is the prefix before the first NUL |
| Strings.CStringWithoutNul | amber_sdk.cpp:625-626 | a message with no NUL in it is read back whole from the C string |
| OrderedKeys.LessIrreflexive | include/amber_sdk.h:54 | `std::string` `operator<` is irreflexive |
| OrderedKeys.LessTransitive | include/amber_sdk.h:54 | `operator<` is transitive |
| OrderedKeys.LessTotal | include/amber_sdk.h:54 | distinct strings are ordered one way or the other |
| OrderedKeys.LessAsymmetric | include/amber_sdk.h:54 | `operator<` is asymmetric |
| OrderedKeys.LeastExists | include/amber_sdk.h:54 | every non-empty key set has a least key |
| OrderedKeys.LeastUnique | include/amber_sdk.h:54 | a key set has at most one least key |
| OrderedKeys.Least | include/amber_sdk.h:54 | the chosen least key belongs to the set |
| OrderedKeys.LeastIsLeast | include/amber_sdk.h:54 | the chosen key is below every other key of the set |
| OrderedKeys.SortedKeysMembers | src/amber_sdk.cpp:669-672 | the map's iteration lists as many keys as it holds, each from the map |
| OrderedKeys.SortedKeysOrdered | src/amber_sdk.cpp:669-672 | the iteration is strictly ascending and visits exactly the map's keys |
| OrderedKeys.AscendingDistinct | src/amber_sdk.cpp:669-672 | no key is visited twice |
| Codec.Sextet | src/amber_sdk.cpp:809-832 | every six-bit group of the input bit stream is below 64 |
| Codec.Base64 | src/amber_sdk.cpp:809-832 | the reference encoding has length 4 * ceil(n / 3) |
| Codec.AlphabetIndex | src/amber_sdk.cpp:820 | each alphabet character gives back its position, and none is '=' |
| Codec.EmitCorrect | src/amber_sdk.cpp:816-823 | each six bits the inner loop emits from the 32-bit accumulator are the next sextet of the input |
| Codec.FlushCorrect | src/amber_sdk.cpp:825-828 | the final flush emits the last, zero-padded sextet, and it is the last significant character |
| Codec.EmitPending | src/amber_sdk.cpp:818-823 | the inner loop leaves the output equal to the input's leading sextets and fewer than six bits pending |
| Codec.Base64Encode | src/amber_sdk.cpp:809-832 | `base64_encode` yields exactly the RFC 4648 section 4 padded encoding of its input |
| Codec.Base64Shape | src/amber_sdk.cpp:809-832 | the output is whole quanta of four; alphabet characters exactly up to ceil(8n / 6), then '=' padding of 0, 2 or 1 for n mod 3 = 0, 1 or 2 |
| Codec.Reassemble | src/amber_sdk.cpp:809-832 | every input byte can be reassembled from the sextets that carry it |
| Codec.Base64Injective | src/amber_sdk.cpp:809-832 | different byte strings have different encodings |
| Codec.FindBreak | src/amber_sdk.cpp:858 | `find("\r\n", i)` gives the first line break at or after `i`, or none |
| Codec.FindColon | src/amber_sdk.cpp:869 | `find(':')` gives the first colon, or none |
| Codec.ParseHeaders | src/amber_sdk.cpp:852-885 | the loop builds exactly the map of storing every segment's trimmed "key: value" field in order |
| Codec.StoreField | src/amber_sdk.cpp:869-874 | a segment with a colon stores its trimmed key and trimmed value; one without stores nothing |
| Codec.SegmentsUnbroken | src/amber_sdk.cpp:857-883 | no segment contains a line break |
| Codec.SegmentsRejoin | src/amber_sdk.cpp:857-883 | the segments, each closed by a line break, spell out the header block, up to one final break |
| Codec.StoredKeys | src/amber_sdk.cpp:873 | a key ends up in the map exactly when some line carries it (or it was there before) |
| Codec.LastFieldWins | src/amber_sdk.cpp:873 | a repeated header keeps the value of its last line |
| Codec.UntouchedKey | src/amber_sdk.cpp:873 | a key no line carries keeps its value |
| Codec.JoinUint16Vec | src/amber_sdk.cpp:887-898 | `join_uint16_vec` yields "[v1,...,vn]", and "]" alone for an empty vector |
| Codec.JoinVecUint16Vec | src/amber_sdk.cpp:900-913 | `join_vec_uint16_vec` yields the joined rows in brackets, and "]" alone for no rows |
| Codec.LastComma | src/amber_sdk.cpp:893 | the last comma is a comma with none after it, or there is none at all |
| Codec.CommaListRoundTrip | src/amber_sdk.cpp:889-895 | the comma-separated decimal list reads back as its values |
| Codec.JoinedIdsRoundTrip | src/amber_sdk.cpp:887-898 | the joined id list, empty or not, reads back as the vector |
| Codec.JoinedIdsShape | src/amber_sdk.cpp:887-898 | a joined list opens '[' only before a digit, ends with ']', and starts with '[' exactly when non-empty |
| Codec.JoinedIdsAccepted | amber_sdk.cpp:475-478 | the id-list check accepts a joined id list exactly when the vector is non-empty |
| Codec.JoinedRowsAccepted | amber_sdk.cpp:498-501 | the pattern-list check accepts joined rows exactly when there is a first row and it is non-empty |
| Codec.JoinedRowsExample | src/amber_sdk.cpp:900-913 | {{1,2},{3}} joins to "[[1,2],[3]]" |
| Credentials.ResolveStages | src/amber_sdk.cpp:53-156 | a throw while reading the file keeps the prior profile and TLS options; otherwise the overrides, TLS options and checks apply to the loaded profile |
| Credentials.OverridesReplaceOwnField | src/amber_sdk.cpp:116-127 | each set `AMBER_*` variable replaces exactly its own field, and an empty OAuth server falls back to the server |
| Credentials.ResolvedProfileComplete | src/amber_sdk.cpp:146-154 | initialisation succeeds only with username, password and server set, and the OAuth server then is too |
| Credentials.EmptyFileSkipped | src/amber_sdk.cpp:72-74 | an empty file name skips the file, and the overrides apply to the client's prior profile |
| Credentials.MissingFileTolerance | src/amber_sdk.cpp:107-112 | an unopenable file throws "not found" exactly when the compared name is not the default (expanded path in this revision, raw argument in the first) |
| Credentials.DefaultFileQuirk | src/amber_sdk.cpp:107-112 | with "~" expanding and no file, the current revision throws even when the environment supplies every credential, while the first revision accepts them |
| Credentials.MissingProfile | src/amber_sdk.cpp:78-113 | a parsed file without the profile throws "license_id not found", naming the id and the stored path |
| Credentials.ProfileFromFile | src/amber_sdk.cpp:78-113 | a profile read from the file, with no overrides, is kept with the OAuth server falling back to the server |
| Credentials.ProfileWithoutUsername | src/amber_sdk.cpp:78-113 | a profile without "username" throws `out_of_range` for it |
| Credentials.SslRules | src/amber_sdk.cpp:128-141 | `AMBER_SSL_VERIFY` unset keeps the arguments; "false" (any case) disables verification and clears the CA bundle; any other value enables it, and any value but "true" becomes the CA bundle |
| Credentials.CredentialsFromEnvironment | test/test_init.cpp:47-62 | credentials from the environment alone, with `AMBER_SSL_VERIFY=false`, give a valid client with verification off |
| Transport.Host.constructor | src/amber_sdk.cpp:714 | a new host has sent nothing |
| Transport.Host.Perform | src/amber_sdk.cpp:714 | `curl_easy_perform` appends the transfer to the history and answers it from that history |
| Client.ToTime | src/amber_sdk.cpp:762 | the `uint64_t` to `time_t` conversion keeps the value modulo 2^64 |
| Client.ApiCallIgnoresCode | src/amber_sdk.cpp:650 | `call_api` overwrites the response code first, so the incoming code never matters |
| Client.AuthCallKeepsProfile | src/amber_sdk.cpp:730-766 | `authenticate` never changes the profile |
| Client.ApiCallKeepsProfile | src/amber_sdk.cpp:642-722 | `call_api` never changes the profile |
| Client.AuthCallStale | src/amber_sdk.cpp:738-756 | with a stale token, `authenticate` marks it unusable, makes the OAuth call and stores the reply |
| Client.SdkRequest.constructor | include/amber_sdk.h:48-55 | `sdk_request{operation, slug}` leaves body, query and headers empty |
| Client.SdkResponse.constructor | include/amber_sdk.h:57-62 | a declared response has no headers and a null body |
| Client.AmberSdk.constructor | include/amber_sdk.h:181-187 | members start empty, zero and false |
| Client.AmberSdk.Create | include/amber_sdk.h:77-81 | the five-argument constructor succeeds exactly when resolution passes, and then holds the resolved profile and no token |
| Client.AmberSdk.CreateDefault | include/amber_sdk.h:66-69 | the no-argument constructor resolves profile "default" of "~/.Amber.license", verifying |
| Client.AmberSdk.CreateFor | include/amber_sdk.h:71-75 | the two-argument constructor resolves the given profile and file, verifying |
| Client.AmberSdk.AmberInit | src/amber_sdk.cpp:53-156 | `amber_init` resets the token times and flag and writes the profile and outcome `Resolve` gives |
| Client.AmberSdk.ApplyEnvironment | src/amber_sdk.cpp:115-141 | the environment block applies the overrides and TLS rules, changing nothing else |
| Client.AmberSdk.VerifyCertificate | include/amber_sdk.h:89 | sets only the verification flag |
| Client.AmberSdk.SetCert | include/amber_sdk.h:91 | sets only the client certificate |
| Client.AmberSdk.SetCainfo | include/amber_sdk.h:93 | sets only the CA bundle |
| Client.AmberSdk.Authenticate | src/amber_sdk.cpp:730-766 | the new state, response and result are those `AuthCall` gives |
| Client.AmberSdk.OAuthRequest | src/amber_sdk.cpp:740-748 | builds the OAuth request: the credentials as JSON posted to "oauth2" |
| Client.AmberSdk.StoreGrant | src/amber_sdk.cpp:753-765 | storing the OAuth reply changes the token cache as `Issue` says and leaves the profile |
| Client.AmberSdk.StoreLifetime | src/amber_sdk.cpp:759-765 | storing a decoded grant changes the token cache as `Grant` says |
| Client.AmberSdk.CallApi | src/amber_sdk.cpp:642-722 | the new state, request, response and exception are those `ApiCall` gives |
| Client.AmberSdk.Send | src/amber_sdk.cpp:662-719 | exactly one transfer, `Prepare`'s, is sent; the request keeps its compressed body; the response is filled from a completed reply only |
| Client.AmberSdk.PostBody | src/amber_sdk.cpp:674-691 | a POST over 10000 bytes is compressed in place; a POST sends its whole body, a PUT its body up to the first NUL (no size is set), other operations none |
| Client.AmberSdk.TlsSettings | src/amber_sdk.cpp:701-711 | the certificate and CA bundle are set only when verifying and non-empty |
| Client.AmberSdk.HeaderList | src/amber_sdk.cpp:662-672 | the header list is the bearer header, the user agent, then the request headers in key order |
| Client.AmberSdk.PretrainSensorXl | src/amber_sdk.cpp:406-476 | the non-blocking chunk loop's state, record and result are those `XlFrom` gives from chunk 0 |
| Client.AmberSdk.ChunkPretrainRequest | src/amber_sdk.cpp:432-457 | the request for one chunk is its base64 "packed-float" data with its headers |
| Client.AmberSdk.PretrainSensor | src/amber_sdk.cpp:494-531 | the non-blocking `pretrain_sensor`'s state, record and result are those `PretrainCall` gives |
| Client.AmberSdk.CsvPretrainRequest | src/amber_sdk.cpp:499-505 | the request is the CSV text as "csv" data with the sensor id |
| ClientProperties.AuthRequestsExactlyWhenStale | src/amber_sdk.cpp:730-766 | `authenticate` sends a transfer exactly when the token is stale; a fresh one changes nothing and reports 200 |
| ClientProperties.IssuedTokenWindow | src/amber_sdk.cpp:732-733 | a token issued at t is reused exactly while now < t + 100, whatever its lifetime |
| ClientProperties.IssueOutcomes | src/amber_sdk.cpp:753-765 | a non-200 makes the token unusable and reports false; a readable lifetime stores token, header and expiry; an unreadable one leaves the token usable with the old header |
| ClientProperties.RejectedAuthSendsNothingElse | src/amber_sdk.cpp:650-660 | after a rejected OAuth request, `call_api` stops with code 0, nothing more sent and the token unusable |
| ClientProperties.ReusedTokenMasksFailedTransfer | src/amber_sdk.cpp:714-719 | a failed transfer after a reused token reports code 200 |
| ClientProperties.TransferHeaderOrder | src/amber_sdk.cpp:662-679 | the bearer header (only when present), the user agent, one line per request header in ascending key order, then the gzip marker when compressed |
| ClientProperties.HeaderLinesOrder | src/amber_sdk.cpp:662-679 | the header lines alone: bearer first when present, the user agent, the request headers in strictly ascending key order, then the gzip marker |
| ClientProperties.CompressionRule | src/amber_sdk.cpp:674-691 | a POST over 10000 characters goes compressed and other POSTs as they are; a PUT is cut at its first NUL and goes whole when it has none; other operations send no body |
| ClientProperties.UrlChoice | src/amber_sdk.cpp:653-663 | the OAuth request goes to the OAuth server without a token; others go to the server with the bearer header |
| ClientProperties.TlsRule | src/amber_sdk.cpp:701-711 | the certificate and CA bundle are passed only while verifying and when set |
| ClientProperties.ChunkBounds | src/amber_sdk.cpp:421-436 | each chunk is non-empty, at most a million samples, and inside the samples |
| ClientProperties.ChunksTile | src/amber_sdk.cpp:421-436 | no samples means no chunks; chunks are contiguous and the last ends at the end |
| ClientProperties.ChunksConcatenate | src/amber_sdk.cpp:432-442 | the chunks, in order, are exactly the samples |
| ClientProperties.ChunkLabelIdentifies | src/amber_sdk.cpp:453-454 | the "amberchunk" label determines the chunk number and the chunk count |
| ClientProperties.ChunkHeadersRule | src/amber_sdk.cpp:449-457 | chunk headers: content type, sensor id, chunk label, and the transaction id exactly once one was received |
| ClientProperties.XlTraceLength | src/amber_sdk.cpp:429-476 | a run sends at most the remaining chunks, one reply per request, and returns null only after sending them all |
| ClientProperties.XlTraceReplies | src/amber_sdk.cpp:462-475 | every reply but the last is a 202; a null return saw only 202s; an error return carries the last non-202 reply's body |
| ClientProperties.XlTraceRequests | src/amber_sdk.cpp:449-470 | the requests are the chunks in order, each carrying the transaction id of the reply before it |
| ClientProperties.XlTraceProgress | src/amber_sdk.cpp:462-475 | the progress record left in `response` is the decoded body of the last accepted 202, or the prior record when none was accepted |
| ClientProperties.NoSamplesNoRequests | src/amber_sdk.cpp:420-429 | with no samples nothing is sent and null is returned |
| ClientProperties.PretrainReplySwitch | src/amber_sdk.cpp:507-529 | a 202 leaves the record and returns null; a 200 whose body decodes makes that the record and returns null, and one whose body does not throws the JSON error with the record unchanged; any other code returns the error body; an exception from `call_api` passes through with the record unchanged; the one request carries the CSV |
| LegacyClient.Deref | amber_sdk.cpp:59-70 | a NULL argument becomes "", and any other is kept |
| LegacyClient.LegacySdk.constructor | amber_sdk.cpp:53-57 | members start empty, zero and false, with the given error-buffer size |
| LegacyClient.LegacySdk.Create | amber_sdk.cpp:51-168 | the constructor succeeds exactly when resolution, as the first revision does it, passes |
| LegacyClient.LegacySdk.Init | amber_sdk.cpp:73-168 | the fields written and the outcome are those `Resolve` gives for the first revision |
| LegacyClient.LegacySdk.ApplyEnvironment | amber_sdk.cpp:129-154 | the environment block applies the overrides and TLS rules |
| LegacyClient.LegacySdk.OverrideCredentials | amber_sdk.cpp:129-140 | each set credential variable replaces its own field |
| LegacyClient.LegacySdk.ResolveTls | amber_sdk.cpp:141-154 | the TLS options follow the arguments, `AMBER_SSL_CERT` and `AMBER_SSL_VERIFY` |
| LegacyClient.LegacySdk.Perform | amber_sdk.cpp:613-630 | performing a transfer and reading the reply is as `Performed` says |
| LegacyClient.LegacySdk.Authenticate | amber_sdk.cpp:727-765 | the state, response and result are those `Authenticated` gives |
| LegacyClient.LegacySdk.AcceptGrant | amber_sdk.cpp:748-763 | a non-200 fails; after a 200 the token is marked usable and the grant decoded and stored |
| LegacyClient.LegacySdk.StoreGrant | amber_sdk.cpp:755-759 | storing a decoded grant changes only the token cache, as `Grant` says |
| LegacyClient.LegacySdk.PostRequest | amber_sdk.cpp:579-631 | the state, response and result are those `Posted` gives |
| LegacyClient.LegacySdk.Authorize | amber_sdk.cpp:534-540 | a failed `authenticate` returns `last_code` without sending; otherwise the built transfer is made |
| LegacyClient.LegacySdk.GetRequest | amber_sdk.cpp:534-577 | `get_request` is `Authorized` with the GET transfer |
| LegacyClient.LegacySdk.PutRequest | amber_sdk.cpp:633-677 | `put_request` is `Authorized` with the PUT transfer |
| LegacyClient.LegacySdk.DeleteRequest | amber_sdk.cpp:679-719 | `delete_request` is `Authorized` with the DELETE transfer |
| LegacyClient.LegacySdk.PretrainSensor | amber_sdk.cpp:352-392 | the non-blocking `pretrain_sensor` is as `Pretrained` says |
| LegacyClient.LegacySdk.GetRootCauseByIdList | amber_sdk.cpp:468-490 | an id list without '[' and ']' throws before sending; otherwise the rows are `RootCauseQueried`'s |
| LegacyClient.LegacySdk.GetRootCauseByPatternList | amber_sdk.cpp:492-513 | a pattern list without "[[" and "]]" throws before sending; otherwise the rows are `RootCauseQueried`'s |
| LegacyClient.LegacySdk.QueryRootCause | amber_sdk.cpp:479-489 | a 200 whose body decodes gives the rows; anything else reports false |
| LegacyProperties.LegacyAuthRequestsExactlyWhenStale | amber_sdk.cpp:727-765 | `authenticate` sends exactly when the token is stale; a fresh token changes nothing; a stale one sends one unauthenticated POST of the credentials to the OAuth server |
| LegacyProperties.RejectedGrantLeavesTokenUnusable | amber_sdk.cpp:748-751 | a non-200 OAuth reply fails `authenticate` and leaves the token unusable |
| LegacyProperties.UndecodableGrantReports200 | amber_sdk.cpp:752-763 | a 200 with an undecodable grant leaves the token usable, and a helper then reports 200 with the OAuth reply as its response, sending nothing else |
| LegacyProperties.ReplyHandling | amber_sdk.cpp:613-630 | the transfer joins the history; a 2xx result happens exactly for a completed 2xx reply, which becomes the response; a failed transfer returns its `CURLcode` with libcurl's text; other replies copy "message" into `last_error` or throw without one |
| LegacyProperties.StrncpyBounds | amber_sdk.cpp:625-626 | the copied message is shorter than the buffer, a NUL-free prefix of the message, and the whole message when it fits and has no NUL |
| LegacyProperties.PostHeaderRules | amber_sdk.cpp:593-610 | content type first; the bearer only when authenticating; user agent; sensor header only for a non-empty id; the gzip marker last exactly for a body over 10000 bytes, which is sent compressed |
| LegacyProperties.PostSendsOneTransfer | amber_sdk.cpp:579-631 | with a fresh token, or no authentication, `post_request` sends exactly its own transfer |
| LegacyProperties.SensorHeaderRules | amber_sdk.cpp:545-555 | GET and PUT send the sensor header only for a non-empty id, DELETE always; the bearer header is second; the query joins the GET URL |
| LegacyProperties.LegacyPretrainRule | amber_sdk.cpp:352-392 | success exactly on a 200 or 202 whose body decodes, returning the decoded record; with a fresh token the one request is the CSV POST to "/pretrain" |
| Generator.CaseizeClass | generate.py:12-15 | fails exactly on an empty name; otherwise hyphens become underscores and the first character is upper-cased, length kept |
| Generator.CaseizeProperty | generate.py:18-21 | the same with the first character lower-cased |
| Generator.CaseizeIdempotent | generate.py:12-21 | generated names hold no hyphen, and caseizing them again changes nothing |
| Generator.CaseizeRoundTrip | generate.py:12-21 | the class name and the member name of a swagger name are recovered from each other |
| Generator.PropertyTypeWellFormed | generate.py:24-65 | every type the mapping produces is a scalar type, a class name or a `std::vector` of one, with no hyphen |
| Generator.NumberNeedsFormat | generate.py:31-48 | a `number` without a format raises `KeyError('format')`, and with one always maps; an `integer` without a format is `int` |
| Generator.RefNamesDefinitionClass | generate.py:60-62 | a reference to "#/definitions/Name" maps to the class generated for Name |
| Generator.IsRequired | generate.py:88-93 | `is_required` is always true |
| Generator.IterateMultidimensional | generate.py:68-85 | the walk only appends; each appended definition follows every definition it refers to; every reference reached is listed and none is self-referent |
| Generator.DefinitionOrder | generate.py:100-108 | the emission order lists each definition exactly once, nothing else, and every definition after the ones it refers to |

## Left out

- **Network, compression and serialisation.** libcurl, zlib (`compress_string`) and `json::dump` are functions supplied by the `Host`, not modelled. So are `json::parse` of reply bodies: a reply is a parsed `Json` value, or a failed transfer. A body that is not JSON, and the resulting `parse_error`, are not modelled.
- **CSV parsing.** `pretrain_sensor_xl` parses its CSV text into floats with a `stringstream`. Floating point is not modelled, so the model takes the parsed samples (four bytes each) as its input.
- **Blocking polling.** The polling loops of `pretrain_sensor_xl` and `pretrain_sensor` need `sleep` and `get_pretrain`. Only the non-blocking path (`blocking == false`) is modelled.
- **The clock.** `std::time(nullptr)` is one parameter `now` per operation. The model assumes the clock does not move within one call.
- **Index widths.** Client.AmberSdk.PretrainSensorXl uses exact indices. The source's indices have fixed widths, and the model does not reproduce their overflow:
  - the `int` index of `base64_encode`, which overflows only on inputs beyond 2 GiB;
  - the `int chunk_idx` of the chunk loop and the `int(start)` and `int(end)` casts of its iterators (src/amber_sdk.cpp:429 and 440-441), which wrap once there are more than 2^31 - 1 samples.
- **JSON numbers.** A JSON number is an integer in this model. Float-valued fields, such as the `std::vector<std::vector<float>>` rows of a root-cause reply, and the conversion and rounding that `get<float>` does are not modelled. Models.NumberFromJson and Models.VectorFromJson pass the number through unchanged.
- **Generated headers.** The classes generated from swagger.json (`PostPretrainRequest`, `PostAuth2Response`, `Error`, ...) are not part of this model. Their fields are inferred from their uses in src/amber_sdk.cpp, and their decoding follows the template at generate.py:189-192. An `error_response` is kept as its raw JSON body.
- Client.AmberSdk.PretrainSensorXl and Client.AmberSdk.PretrainSensor: an error reply's body is returned as it is. The source decodes it with `get<error_response>()` (src/amber_sdk.cpp:465, 474 and 528). That decode can throw a `type_error` on a mistyped field, such as `{"message": 5}`, and the model does not model it: where the source would throw, the model returns the body (`XlAfter` and `PretrainCall` end in `Returned(Some(body))`).
- **Exception texts.** `amber_except` message formatting and the `fprintf(stderr, ...)` diagnostics are not modelled; the error kinds and their arguments are.
- **Other endpoints.** The endpoint wrappers other than the pretrain and root-cause ones (sensor CRUD, configure, stream, status, version, ...) are not modelled. They follow the same request pattern as the modelled ones.
- **sdk.cpp.** The earliest client, sdk.cpp, is not part of this model.
- **Split methods.** `call_api` and `authenticate` of the current revision are modelled as several methods (`CallApi`, `Send`, `PostBody`, `TlsSettings`, `HeaderList`; `Authenticate`, `OAuthRequest`, `StoreGrant`, `StoreLifetime`). They perform the same steps in the same order.
- **First-revision helpers.** `reset_last_message` and the declaration of `last_error` (the first revision's header) are not part of this model. Reset is modelled as clearing the error text. `sizeof(last_error)` is a constructor parameter, and the array's last element is taken to hold a NUL.
- **First-revision class layout.** The first revision's class declaration is taken to match include/amber_sdk.h, and its setters are inlined into the constructor.
- **Generator output.** The generator's code emission (`print` of the header) and its `classes`/`properties` dictionaries are not modelled; the name, type and order logic that feeds them is.
- **Case conversion.** `str.upper` and `str.lower` are modelled on ASCII letters only.
- **Generator input.** The swagger document is taken to have distinct keys in each dict, and numbers are taken to be integers (their value is never inspected).
- Generator.PropertyType: the mapping recurses into nested "array" items without bound. Python stops that recursion with `RecursionError` once the nesting exceeds its recursion limit; the model has no such outcome and maps any depth of nesting.
- Generator.IterateMultidimensional: Python's recursion limit is a `depth` bound counting only the walk's own frames. A reference cycle longer than one definition exhausts it and gives `RecursionError`, which the contract does not state; a direct self-reference is excluded by the contract.
