# currencyapi-rs, modelled in Dafny

currencyapi-rs is an asynchronous client for the currencyapi REST service. Most
of the crate hands work to the HTTP library and the JSON library. Two pieces of
logic belong to the crate itself, and this project models both:

- **Base-URL construction** (`construct_base_url`, module `Baseline`,
  `utils.dfy`). It starts from `https://api.currencyapi.com/v3/`. It removes
  every leading `/` from the optional sub-path and every trailing `/` from the
  base path `/v3/`. It then joins the two with one `/`. The client settings
  are also here: the default user agent `"/"` and the JSON content type.
- **The client** (`Currencyapi`, module `Api`, `api.dfy`). `new` keeps the API
  key. Each of the six operations (`status`, `currencies`, `latest`,
  `historical`, `convert`, `range`) does the same four steps:
  1. Build the URL for its path segment.
  2. Append its query pairs one by one, in a fixed order, through the
     in-place serializer (the class `QueryPairsMut`).
  3. Send the request.
  4. Map the outcome. A failed send or body read becomes `RequestError`. A
     body that does not parse becomes `ResponseParsingError`, which carries
     that body.

  Each operation is a method. It is proved equal to the reference function
  `Outcome`. `Outcome` is defined from `Request`, which gives the URL an
  operation asks for (path segment and ordered `QueryPairs`), and from
  `HandleReply`, the error mapping.
- **The amount of `convert`** (module `Decimal`, `decimal.dfy`). The amount is
  an `i8`. It is sent as its decimal text. The model renders it and parses it
  back, and proves that the two agree.

The model takes these external collaborators as parameters (the `Externals`
record):

- the outcome of parsing the base-URL literal (`url` crate);
- the network exchange: send the GET request, then read the body
  (`reqwest`);
- JSON decoding (`serde_json`), an oracle that succeeds or fails.

The client builder's success or failure is a parameter of `New` and of
`ConstructClient`.

The API key is not part of any request:

- `src/api/mod.rs` calls `construct_base_url(&self.settings.api_key, Some(..))`
  with two arguments (lines 46, 72, 105, 143, 184, 228).
- The definition in `src/utils.rs:28-30` takes only `with_path`.
- No code in these files adds the key to the query.

The crate documentation says the crate manages authentication for the caller
(`src/lib.rs:9`). The code as given does not do that. The model follows
`utils.rs`: no operation sends an `apikey` pair (`Api.ApiKeyNeverSent`), and
no result depends on the key held in `Settings`.

The `convert` amount is an `i8`, so only amounts from -128 to 127 can be
requested. This is a narrow range for a currency amount. The model keeps it,
because the source declares it.

## Model

| member | source | states |
|---|---|---|
| `Baseline.LeadingSlashes` | src/utils.rs:33 | The count of leading slashes is at most the length. Every character it covers is `/`, and the next character, if any, is not. |
| `Baseline.TrailingSlashes` | src/utils.rs:34 | The count of trailing slashes is at most the length. Every character it covers is `/`, and the character before them, if any, is not. |
| `Baseline.TrimStartSlashes` | src/utils.rs:33 | The result is a suffix of the input. Every character removed in front of it is `/`. The result does not start with `/`. |
| `Baseline.TrimEndSlashes` | src/utils.rs:34 | The result is a prefix of the input. Every character removed after it is `/`. The result does not end with `/`. |
| `Baseline.TrimStartSlashesOf` | src/utils.rs:33 | Any number of slashes followed by a text that does not start with `/` trims to exactly that text. |
| `Baseline.LeadingSlashesAppend` | src/utils.rs:33 | Slashes put in front of a text add exactly their number to the count of its leading slashes. |
| `Baseline.TrimStartSlashesSplits` | src/utils.rs:33 | The input is exactly some slashes followed by the trimmed result. |
| `Baseline.TrimStartSlashesIdempotent` | src/utils.rs:33 | Trimming the leading slashes twice gives the same result as trimming once. |
| `Baseline.LeadingSlashesIgnored` | src/utils.rs:33 | Extra slashes in front of a sub-path do not change the trimmed result. |
| `Baseline.JoinPathSeparator` | src/utils.rs:34 | The join is the trimmed base, then one `/`, then the trimmed sub-path. There is no `/` just before or just after that separator. |
| `Baseline.JoinPath` | src/utils.rs:34 | The joined path: the base path without its trailing slashes, one `/`, then the sub-path without its leading slashes. Its shape is proved in `Baseline.JoinPathSeparator`. |
| `Baseline.BasePathTrimmed` | src/utils.rs:34 | Trimming the trailing slashes of the base path `/v3/` gives `/v3`. |
| `Baseline.JoinOntoBasePath` | src/utils.rs:34 | Joining any sub-path onto `/v3/` gives `/v3/` followed by the sub-path with its leading slashes removed. |
| `Baseline.ConstructBaseUrl` | src/utils.rs:28-38 | It fails exactly when the base literal fails to parse, and then only with `UrlConstruction`. It never changes the scheme, host or query. With no sub-path the URL is the parsed base unchanged. |
| `Baseline.NoSubPathKeepsBasePath` | src/utils.rs:45-49 | With no sub-path the result is the base URL, with path exactly `/v3/`. |
| `Baseline.SubPathAppended` | src/utils.rs:33-35 | With sub-path `p` the URL is built, and its path is `"/v3" + "/" + p` with the leading slashes of `p` removed. |
| `Baseline.BasePrefixKept` | src/utils.rs:34 | Every path built from the base starts with `/v3/`. |
| `Baseline.OneSlashAfterBase` | src/utils.rs:33-34 | Exactly one `/` separates `/v3` from the sub-path. What follows `/v3/` never starts with `/`. |
| `Baseline.SubPathKeptAfterLeadingSlashes` | src/utils.rs:33 | Only leading slashes are dropped. The sub-path equals some slashes followed by exactly the text after `/v3/`, so its interior and trailing characters are kept. |
| `Baseline.SubPathRoundTrip` | src/utils.rs:33-35 | A sub-path without a leading `/` comes back unchanged after `/v3/`. |
| `Baseline.LeadingSlashesIrrelevant` | src/utils.rs:33 | For any parse outcome, any number of slashes in front of the sub-path gives the same result. |
| `Baseline.SlashOnlySubPathIsNoSubPath` | src/utils.rs:32-35 | A sub-path that is empty or made only of slashes gives the path `/v3/`, the same as no sub-path. |
| `Baseline.TestPathExamples` | src/utils.rs:51-55 | For `p` = `test/path`, both `p` and `/` + `p` (that is, `/test/path`) give the path `/v3/test/path`. |
| `Baseline.PlainSubPathStaysPlain` | src/utils.rs:33-35 | A sub-path made only of ASCII letters, digits, `/`, `-` and `_` gives a path made only of those characters. `set_path` stores such a path unchanged. |
| `Baseline.UserAgent` | src/utils.rs:16-19 | With no user agent supplied the agent is `"/"`. A supplied agent is used unchanged. |
| `Baseline.ConstructClient` | src/utils.rs:9-26 | It succeeds exactly when the builder succeeds. A builder failure becomes `ClientConstruction` with the builder's error. A built client has the chosen agent and the `application/json` content type. |
| `Baseline.DefaultUserAgentIsSlash` | src/utils.rs:16-19 | A client built with no user agent identifies itself as `"/"` and sends the JSON content type. |
| `Decimal.NatToDecimal` | src/api/mod.rs:188 | The rendering of a natural number is non-empty and all digits. It has no leading zero. It is one digit exactly for values below 10. |
| `Decimal.IntToDecimal` | src/api/mod.rs:188 | The rendering starts with `-` exactly for negative values. After the sign come only digits. |
| `Decimal.I8ToString` | src/api/mod.rs:188 | An `i8` renders in one to four characters. |
| `Decimal.NatRoundTrip` | src/api/mod.rs:188 | Reading the digits of a rendered natural number gives the number back. |
| `Decimal.IntRoundTrip` | src/api/mod.rs:188 | Parsing the rendering of any integer gives the integer back. |
| `Decimal.NegativeRoundTrip` | src/api/mod.rs:188 | A minus sign followed by the digits of a positive number parses to the negated number. |
| `Decimal.I8RoundTrip` | src/api/mod.rs:181-188 | Parsing the text sent for an `i8` amount gives that amount back, within the `i8` range. |
| `Decimal.I8ToStringInjective` | src/api/mod.rs:181-188 | Two different amounts are never sent as the same text. |
| `Api.PathSegment` | src/api/mod.rs:46-228 | Each operation's segment (`status`, `currencies`, `latest`, `historical`, `convert`, `range`) is non-empty, does not start with `/`, and is plain. So it survives the trim and `set_path` unchanged. |
| `Api.QueryPairs` | src/api/mod.rs:105-234 | The pairs each operation appends, in `append_pair` order. The query is empty exactly for `status` and `currencies`. It has at most five pairs. |
| `Api.QueryNamesPlain` | src/api/mod.rs:105-234 | Every appended name is a non-empty word of lower-case ASCII letters and `_`. All of these characters are in the set form-urlencoding leaves unchanged (letters, digits, `*`, `-`, `.`, `_`), so the encoding in `append_pair` leaves every name as written. |
| `Api.PlainNames` | src/api/mod.rs:105-234 | Each of the seven names used in the crate's queries is a non-empty word of lower-case ASCII letters and `_`, which form-urlencoding leaves unchanged. |
| `Api.Outcome` | src/api/mod.rs:46-57 | The shared template of all six operations: build the request, send it, map the reply. A failed base parse gives `UrlConstruction`. An operation never fails with `ClientConstruction`. |
| `Api.LookupNone` | src/api/mod.rs:106-108 | `Lookup` is a reading helper for stating properties, with no counterpart in the crate. It reads a query built by the `append_pair` chain and finds nothing exactly when no pair has that name. |
| `Api.LookupFirst` | src/api/mod.rs:106-108 | `Lookup` is a reading helper for stating properties, with no counterpart in the crate. It returns the value of the first pair with the given name. |
| `Api.Request` | src/api/mod.rs:105-108 | Building an operation's URL fails exactly when the base literal fails to parse. |
| `Api.HandleReply` | src/api/mod.rs:47-57 | A failed send or body read gives `RequestError` with its transport error. A body that parses gives the parsed value. A body that does not parse gives `ResponseParsingError` with that body. |
| `Api.QueryPairsMut.constructor` | src/api/mod.rs:106 | The serializer holds the URL it was given. |
| `Api.QueryPairsMut.AppendPair` | src/api/mod.rs:106-108 | Appending puts the pair at the end of the query. The rest of the URL and the earlier pairs are unchanged. |
| `Api.Currencyapi.New` | src/api/mod.rs:26-32 | The client is built exactly when the HTTP client builds. It keeps the API key unchanged. The client is exactly the one `ConstructClient` builds with no user agent: agent `"/"` and the `application/json` content type. A builder failure is `ClientConstruction`. |
| `Api.Currencyapi.Status` | src/api/mod.rs:43-58 | The result is `Outcome` for `status`: the URL with segment `status` and no query, then the shared error mapping. |
| `Api.Currencyapi.Currencies` | src/api/mod.rs:69-84 | The result is `Outcome` for `currencies`: segment `currencies`, no query, then the shared error mapping. |
| `Api.Currencyapi.Latest` | src/api/mod.rs:100-120 | The result is `Outcome` for `latest`: segment `latest`, then `base_currency` and `currencies` appended in that order. |
| `Api.Currencyapi.Historical` | src/api/mod.rs:137-159 | The result is `Outcome` for `historical`: segment `historical`, then `base_currency`, `date` and `currencies` in that order. |
| `Api.Currencyapi.Convert` | src/api/mod.rs:177-201 | The result is `Outcome` for `convert`: segment `convert`, then `base_currency`, `date`, the decimal text of the `i8` `value`, and `currencies`. |
| `Api.Currencyapi.Range` | src/api/mod.rs:220-246 | The result is `Outcome` for `range`: segment `range`, then `base_currency`, `datetime_start`, `datetime_end`, `accuracy` and `currencies`. |
| `Api.RequestShape` | src/api/mod.rs:105-108 | On the real base, every operation asks `https://api.currencyapi.com`. The path is `/v3/` followed by the operation's segment, and the query is exactly the operation's own pairs. |
| `Api.RequestPathsPlain` | src/api/mod.rs:43-246 | Every path the client requests is plain, so the url crate's `set_path` leaves it as built. |
| `Api.DecodeRequestRoundTrip` | src/api/mod.rs:43-246 | The operation and all its arguments can be read back from the URL it requests. |
| `Api.DecodeRequestOf` | src/api/mod.rs:43-246 | A URL whose path is `/v3/` and a segment, and whose query is that operation's pairs, decodes to that operation. |
| `Api.RequestInjective` | src/api/mod.rs:43-246 | Two different calls never request the same URL. |
| `Api.NoQueryForStatusAndCurrencies` | src/api/mod.rs:43-84 | `status` asks for `/v3/status` and `currencies` asks for `/v3/currencies`. Neither has a query. |
| `Api.BareSegmentPaths` | src/api/mod.rs:46-72 | The path of `status` is `/v3/status` and the path of `currencies` is `/v3/currencies`. |
| `Api.ArgumentsByName` | src/api/mod.rs:105-234 | Each argument of a call is in the query unchanged, under its own name. |
| `Api.LatestArguments` | src/api/mod.rs:105-108 | `latest` sends its base currency under `base_currency` and its currency list under `currencies`. |
| `Api.HistoricalArguments` | src/api/mod.rs:143-147 | `historical` sends its base currency, date and currency list under `base_currency`, `date` and `currencies`. |
| `Api.ConvertArguments` | src/api/mod.rs:184-189 | `convert` sends its base currency, date, amount text and currency list under `base_currency`, `date`, `value` and `currencies`. |
| `Api.RangeArguments` | src/api/mod.rs:228-234 | `range` sends each of its five arguments under its own name: `base_currency`, `datetime_start`, `datetime_end`, `accuracy` and `currencies`. |
| `Api.RangeAccuracyBeforeCurrencies` | src/api/mod.rs:220-234 | `range` sends `accuracy` fourth and `currencies` fifth, although `accuracy` is its last argument. |
| `Api.ConvertValueReadsBack` | src/api/mod.rs:181-188 | The `value` pair is third. Its text parses back to the amount, which lies in [-128, 127]. |
| `Api.ApiKeyNeverSent` | src/utils.rs:28-30 | No operation appends a pair named `apikey`. |
| `Api.OutcomeErrorKinds` | src/api/mod.rs:46-57 | An operation fails only with `UrlConstruction`, `RequestError` or `ResponseParsingError`. It fails with `UrlConstruction` exactly when the base literal fails to parse. |
| `Api.TransportFailureSkipsParsing` | src/api/mod.rs:47-55 | If the send or the body read fails, the result is `RequestError` with that transport error. The body is never parsed: any other parser gives the same result. |
| `Api.ParsingErrorCarriesBody` | src/api/mod.rs:56-57 | A `ResponseParsingError` carries a given body exactly when that body was received and did not parse. |
| `Api.SuccessIsParsedBody` | src/api/mod.rs:56-57 | A successful result is exactly the parse of the body received. |

## Left out

- HTTP sending and body reading (`send().await`, `text().await`) are asynchronous network I/O. They are the `send` parameter, which returns one of three replies: send failed, read failed, or the body text.
- `send` stands for `self.client.get(url).send()` followed by `.text()`, and it sees only the URL. The headers of the request are not part of the modelled request. These are the user agent `"/"` and the `application/json` content type that `new` configures (src/utils.rs:13-24). `ConstructClient` and `Currencyapi.New` state what the client holds, but no lemma connects the client to what is sent.
- JSON decoding with `serde_json` belongs to a foreign library. It is the `parseJson` oracle. `DetailsResponse` (src/models/mod.rs:3-8) is a record of two strings.
- `Url::parse` of the constant belongs to the `url` crate. Its outcome is the `parsedBase` parameter. The lemmas use the parse `BaseUrl`: scheme, host, path `/v3/` and an empty query.
- ConstructBaseUrl: the path it returns is the text handed to `set_path` (src/utils.rs:35), not the path the url crate stores. For an https URL, `set_path` resolves `.` and `..` segments, turns `\` into `/`, treats `%2e` and `%2E` as dots in dot segments, drops tab, CR and LF, and percent-encodes the other control characters, DEL, every non-ASCII character (`é` becomes `%C3%A9`), space, `"`, `#`, `<`, `>`, `?`, `` ` ``, `{` and `}`. None of this is modelled, because it belongs to the url crate.
- BasePrefixKept, OneSlashAfterBase, SubPathAppended, SubPathKeptAfterLeadingSlashes, SubPathRoundTrip, SlashOnlySubPathIsNoSubPath and LeadingSlashesIrrelevant describe that joined text for every sub-path. The stored path agrees with it only when the sub-path avoids the cases above. With `..` as the sub-path, the joined text is `/v3/..` but the stored path is `/`, which does not start with `/v3/`. On plain paths (`PlainPath`: ASCII letters, digits, `/`, `-` and `_`) the two agree, and `Api.RequestPathsPlain` shows that every path the client requests is plain.
- Percent-encoding in `append_pair` is not modelled. Query values are kept as raw strings. The names are words of lower-case letters and `_` (`Api.QueryNamesPlain`). Form-urlencoding leaves those characters unchanged, so the names are sent as written. Values containing reserved characters would be sent encoded.
- `reqwest`'s `Client::builder`, `HeaderMap` and `HeaderValue` are foreign construction. The builder's outcome is a parameter. `HeaderValue::from_str("application/json")` always accepts this constant, so that error path is not modelled.
- The `Arc<Settings>` sharing and the `Clone` and `Debug` derives are ownership plumbing with no observable behaviour.
- `src/error.rs` is not part of this model. The four error variants are taken from how the code uses them.
- src/lib.rs holds only module declarations, re-exports and documentation.
