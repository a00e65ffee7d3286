/**
 * The client of src/api/mod.rs: its construction and its six operations.
 *
 * Every operation builds the URL for its path segment, appends its query
 * pairs one by one, sends a GET request, reads the body and parses it. The
 * network and the JSON parser are outside the crate; they are the `send`
 * and `parseJson` fields of `Externals`, and so is the outcome of parsing
 * the base URL literal.
 */
module Api {
  import opened Errors
  import opened Decimal
  import opened Baseline

  /** Holds the API key. */
  datatype Settings = Settings(apiKey: string)

  /** The decoded body: two strings. */
  datatype DetailsResponse = DetailsResponse(data: string, meta: string)

  /** What the HTTP layer gives back for one request. */
  datatype Reply =
    | SendFailed(source: TransportError)  // sending the request failed
    | TextFailed(source: TransportError)  // reading the body failed
    | Body(text: string)                  // the whole body, as text

  /** The collaborators the crate calls but does not implement. */
  datatype Externals = Externals(
    parsedBase: Option<Url>,                       // outcome of parsing BASE_URL
    send: Url -> Reply,                            // GET the URL, read the body
    parseJson: string -> Option<DetailsResponse>)  // JSON decoding of a body

  /** One call of the client with its arguments. */
  datatype Operation =
    | Status
    | Currencies
    | Latest(baseCurrency: string, currencies: string)
    | Historical(baseCurrency: string, date: string, currencies: string)
    | Convert(baseCurrency: string, date: string, value: I8, currencies: string)
    | Range(baseCurrency: string, datetimeStart: string, datetimeEnd: string, currencies: string, accuracy: string)

  /** The path segment each operation asks for. */
  function PathSegment(op: Operation): (segment: string)
    ensures |segment| >= 1 && segment[0] != '/'
    ensures PlainPath(segment)
  {
    match op
    case Status => "status"
    case Currencies => "currencies"
    case Latest(_, _) => "latest"
    case Historical(_, _, _) => "historical"
    case Convert(_, _, _, _) => "convert"
    case Range(_, _, _, _, _) => "range"
  }

  /** The query pairs each operation appends, in the order it appends them. */
  function QueryPairs(op: Operation): (q: seq<(string, string)>)
    ensures q == [] <==> op.Status? || op.Currencies?
    ensures |q| <= 5
  {
    match op
    case Status => []
    case Currencies => []
    case Latest(b, c) => [("base_currency", b), ("currencies", c)]
    case Historical(b, d, c) => [("base_currency", b), ("date", d), ("currencies", c)]
    case Convert(b, d, v, c) => [("base_currency", b), ("date", d), ("value", I8ToString(v)), ("currencies", c)]
    case Range(b, s, e, c, a) =>
      [("base_currency", b), ("datetime_start", s), ("datetime_end", e), ("accuracy", a), ("currencies", c)]
  }

  /** The names of the query pairs, in order. */
  function Names(query: seq<(string, string)>): (names: seq<string>)
    ensures |names| == |query| && forall i :: 0 <= i < |query| ==> names[i] == query[i].0
  {
    seq(|query|, i requires 0 <= i < |query| => query[i].0)
  }

  /** The value of the first pair with the given name, if there is one. */
  function Lookup(query: seq<(string, string)>, name: string): (r: Option<string>)
  {
    if query == [] then None
    else if query[0].0 == name then Some(query[0].1)
    else Lookup(query[1..], name)
  }

  /** Nothing is found exactly when no pair has the name. */
  lemma {:induction false} LookupNone(query: seq<(string, string)>, name: string)
    ensures Lookup(query, name).None? <==> forall i :: 0 <= i < |query| ==> query[i].0 != name
  {
    if query != [] && query[0].0 != name {
      LookupNone(query[1..], name);
      assert forall i :: 1 <= i < |query| ==> query[i] == query[1..][i - 1];
    }
  }

  /** The pair found is the first one with that name. */
  lemma {:induction false} LookupFirst(query: seq<(string, string)>, name: string, i: nat)
    requires i < |query| && query[i].0 == name
    requires forall j :: 0 <= j < i ==> query[j].0 != name
    ensures Lookup(query, name) == Some(query[i].1)
  {
    if i > 0 {
      LookupFirst(query[1..], name, i - 1);
    }
  }

  /** The URL an operation requests: the base URL with its path segment, then its query pairs. */
  function Request(parsedBase: Option<Url>, op: Operation): (r: Result<Url>)
    ensures r.Err? <==> parsedBase.None?
  {
    match ConstructBaseUrl(parsedBase, Some(PathSegment(op)))
    case Err(e) => Err(e)
    case Ok(url) => Ok(url.(query := url.query + QueryPairs(op)))
  }

  /**
   * The error mapping shared by all operations: a failure to send or to read
   * the body is a RequestError, a body that does not parse is a
   * ResponseParsingError with that body, anything else is the parsed body.
   */
  function HandleReply(reply: Reply, parseJson: string -> Option<DetailsResponse>): (r: Result<DetailsResponse>)
    ensures !reply.Body? ==> r == Err(RequestError(reply.source))
    ensures reply.Body? ==> (r.Ok? <==> parseJson(reply.text).Some?)
    ensures reply.Body? && r.Ok? ==> r.value == parseJson(reply.text).value
    ensures reply.Body? && r.Err? ==> r.error == ResponseParsingError(reply.text)
  {
    match reply
    case SendFailed(e) => Err(RequestError(e))
    case TextFailed(e) => Err(RequestError(e))
    case Body(text) =>
      match parseJson(text)
      case Some(response) => Ok(response)
      case None => Err(ResponseParsingError(text))
  }

  /** What a call of the operation returns. */
  function Outcome(ext: Externals, op: Operation): (r: Result<DetailsResponse>)
    ensures ext.parsedBase.None? ==> r == Err(UrlConstruction)
    ensures r.Err? ==> !r.error.ClientConstruction?
  {
    match Request(ext.parsedBase, op)
    case Err(e) => Err(e)
    case Ok(url) => HandleReply(ext.send(url), ext.parseJson)
  }

  /**
   * The serializer that `query_pairs_mut` hands out: it appends pairs to the
   * query of the URL it holds, in place.
   */
  class QueryPairsMut {
    var url: Url

    constructor (url: Url)
      ensures this.url == url
    {
      this.url := url;
    }

    method AppendPair(name: string, value: string)
      modifies this
      ensures url == old(url).(query := old(url).query + [(name, value)])
    {
      url := url.(query := url.query + [(name, value)]);
    }
  }

  /** The client: an HTTP client and the settings. */
  datatype Currencyapi = Currencyapi(client: Client, settings: Settings) {

    /** Keeps the API key as given and builds a client with the default user agent "/". */
    static function New(apiKey: string, buildFailure: Option<TransportError>): (r: Result<Currencyapi>)
      ensures r.Ok? <==> buildFailure.None?
      ensures r.Ok? ==> r.value.settings.apiKey == apiKey
      ensures r.Ok? ==> r.value.client.userAgent == "/"
      ensures r.Ok? ==> r.value.client == ConstructClient(None, buildFailure).value
      ensures r.Err? ==> r.error == ClientConstruction(buildFailure.value)
    {
      var settings := Settings(apiKey);
      var client :- ConstructClient(None, buildFailure);
      Ok(Currencyapi(client, settings))
    }

    method Status(ext: Externals) returns (r: Result<DetailsResponse>)
      ensures r == Outcome(ext, Operation.Status)
    {
      ghost var op := Operation.Status;
      assert PathSegment(op) == "status";
      var url :- ConstructBaseUrl(ext.parsedBase, Some("status"));
      assert url == Request(ext.parsedBase, op).value;
      r := HandleReply(ext.send(url), ext.parseJson);
    }

    method Currencies(ext: Externals) returns (r: Result<DetailsResponse>)
      ensures r == Outcome(ext, Operation.Currencies)
    {
      ghost var op := Operation.Currencies;
      assert PathSegment(op) == "currencies";
      var url :- ConstructBaseUrl(ext.parsedBase, Some("currencies"));
      assert url == Request(ext.parsedBase, op).value;
      r := HandleReply(ext.send(url), ext.parseJson);
    }

    method Latest(ext: Externals, baseCurrency: string, currencies: string) returns (r: Result<DetailsResponse>)
      ensures r == Outcome(ext, Operation.Latest(baseCurrency, currencies))
    {
      ghost var op := Operation.Latest(baseCurrency, currencies);
      assert PathSegment(op) == "latest";
      var url :- ConstructBaseUrl(ext.parsedBase, Some("latest"));
      var pairs := new QueryPairsMut(url);
      pairs.AppendPair("base_currency", baseCurrency);
      pairs.AppendPair("currencies", currencies);
      assert pairs.url.query == url.query + QueryPairs(op);
      assert pairs.url == Request(ext.parsedBase, op).value;
      r := HandleReply(ext.send(pairs.url), ext.parseJson);
    }

    method Historical(ext: Externals, baseCurrency: string, date: string, currencies: string)
      returns (r: Result<DetailsResponse>)
      ensures r == Outcome(ext, Operation.Historical(baseCurrency, date, currencies))
    {
      ghost var op := Operation.Historical(baseCurrency, date, currencies);
      assert PathSegment(op) == "historical";
      var url :- ConstructBaseUrl(ext.parsedBase, Some("historical"));
      var pairs := new QueryPairsMut(url);
      pairs.AppendPair("base_currency", baseCurrency);
      pairs.AppendPair("date", date);
      pairs.AppendPair("currencies", currencies);
      assert pairs.url.query == url.query + QueryPairs(op);
      assert pairs.url == Request(ext.parsedBase, op).value;
      r := HandleReply(ext.send(pairs.url), ext.parseJson);
    }

    method Convert(ext: Externals, baseCurrency: string, date: string, value: I8, currencies: string)
      returns (r: Result<DetailsResponse>)
      ensures r == Outcome(ext, Operation.Convert(baseCurrency, date, value, currencies))
    {
      ghost var op := Operation.Convert(baseCurrency, date, value, currencies);
      assert PathSegment(op) == "convert";
      var url :- ConstructBaseUrl(ext.parsedBase, Some("convert"));
      var pairs := new QueryPairsMut(url);
      pairs.AppendPair("base_currency", baseCurrency);
      pairs.AppendPair("date", date);
      pairs.AppendPair("value", I8ToString(value));
      pairs.AppendPair("currencies", currencies);
      assert pairs.url.query == url.query + QueryPairs(op);
      assert pairs.url == Request(ext.parsedBase, op).value;
      r := HandleReply(ext.send(pairs.url), ext.parseJson);
    }

    method Range(ext: Externals, baseCurrency: string, datetimeStart: string, datetimeEnd: string,
                 currencies: string, accuracy: string)
      returns (r: Result<DetailsResponse>)
      ensures r == Outcome(ext, Operation.Range(baseCurrency, datetimeStart, datetimeEnd, currencies, accuracy))
    {
      ghost var op := Operation.Range(baseCurrency, datetimeStart, datetimeEnd, currencies, accuracy);
      assert PathSegment(op) == "range";
      var url :- ConstructBaseUrl(ext.parsedBase, Some("range"));
      var pairs := new QueryPairsMut(url);
      pairs.AppendPair("base_currency", baseCurrency);
      pairs.AppendPair("datetime_start", datetimeStart);
      pairs.AppendPair("datetime_end", datetimeEnd);
      pairs.AppendPair("accuracy", accuracy);
      pairs.AppendPair("currencies", currencies);
      assert pairs.url.query == url.query + QueryPairs(op);
      assert pairs.url == Request(ext.parsedBase, op).value;
      r := HandleReply(ext.send(pairs.url), ext.parseJson);
    }
  }

  // ---------------------------------------------------------------------------
  // The shape of the requests

  /**
   * Reads an operation back from a URL: the path must be "/v3/" and a known
   * segment, and the query must hold that operation's names in its order.
   */
  function DecodeRequest(url: Url): Option<Operation> {
    if !(|url.path| >= |BasePath| && url.path[..|BasePath|] == BasePath) then None
    else
      var segment, q := url.path[|BasePath|..], url.query;
      if segment == "status" && q == [] then Some(Status)
      else if segment == "currencies" && q == [] then Some(Currencies)
      else if segment == "latest" && Names(q) == ["base_currency", "currencies"] then
        Some(Latest(q[0].1, q[1].1))
      else if segment == "historical" && Names(q) == ["base_currency", "date", "currencies"] then
        Some(Historical(q[0].1, q[1].1, q[2].1))
      else if segment == "convert" && Names(q) == ["base_currency", "date", "value", "currencies"] then
        match ParseI8(q[2].1)
        case Some(v) => Some(Convert(q[0].1, q[1].1, v, q[3].1))
        case None => None
      else if segment == "range"
           && Names(q) == ["base_currency", "datetime_start", "datetime_end", "accuracy", "currencies"] then
        Some(Range(q[0].1, q[1].1, q[2].1, q[4].1, q[3].1))
      else None
  }

  /**
   * On the real base URL every operation requests https://api.currencyapi.com
   * with the path "/v3/" + its segment and exactly its own query pairs.
   */
  lemma RequestShape(op: Operation)
    ensures Request(Some(BaseUrl), op).Ok?
    ensures Request(Some(BaseUrl), op).value
         == Url("https", "api.currencyapi.com", BasePath + PathSegment(op), QueryPairs(op))
  {
    var segment := PathSegment(op);
    assert segment[0] != '/';
    SubPathRoundTrip(segment);
  }

  /**
   * Every path the client requests is plain, so the url crate stores it as
   * built: none of `set_path`'s rewriting applies to it.
   */
  lemma RequestPathsPlain(op: Operation)
    ensures PlainPath(Request(Some(BaseUrl), op).value.path)
  {
    PlainSubPathStaysPlain(PathSegment(op));
  }

  /**
   * A character form-urlencoding (the encoding `append_pair` applies) leaves
   * as it is: an ASCII letter or digit, '*', '-', '.' or '_'.
   */
  predicate FormUnreserved(c: char) {
    ('a' <= c <= 'z') || ('A' <= c <= 'Z') || ('0' <= c <= '9') || c == '*' || c == '-' || c == '.' || c == '_'
  }

  /** A non-empty name of lower-case ASCII letters and '_', all of them unreserved. */
  predicate QueryWord(n: string) {
    |n| >= 1 && forall i :: 0 <= i < |n| ==> ('a' <= n[i] <= 'z' || n[i] == '_') && FormUnreserved(n[i])
  }

  /**
   * Every query name is a word of letters and '_', so form-urlencoding leaves
   * the names alone; only the values can be rewritten by it.
   */
  lemma QueryNamesPlain(op: Operation)
    ensures forall i :: 0 <= i < |QueryPairs(op)| ==> QueryWord(QueryPairs(op)[i].0)
  {
    var q := QueryPairs(op);
    PlainNames();
    forall i | 0 <= i < |q|
      ensures QueryWord(q[i].0)
    {
      assert q[i].0 in QueryNames;
    }
  }

  /** Every name an operation can append. */
  const QueryNames: set<string> :=
    {"base_currency", "currencies", "date", "value", "datetime_start", "datetime_end", "accuracy"}

  lemma PlainNames()
    ensures forall n :: n in QueryNames ==> QueryWord(n)
  {
    assert QueryWord("base_currency") && QueryWord("datetime_start") && QueryWord("datetime_end");
  }

  /** The request determines the operation and all its arguments. */
  lemma DecodeRequestRoundTrip(op: Operation)
    ensures DecodeRequest(Request(Some(BaseUrl), op).value) == Some(op)
  {
    RequestShape(op);
    var url := Request(Some(BaseUrl), op).value;
    assert url.path[..|BasePath|] == BasePath;
    assert url.path[|BasePath|..] == PathSegment(op);
    DecodeRequestOf(url, op);
  }

  lemma DecodeRequestOf(url: Url, op: Operation)
    requires |url.path| >= |BasePath| && url.path[..|BasePath|] == BasePath
    requires url.path[|BasePath|..] == PathSegment(op) && url.query == QueryPairs(op)
    ensures DecodeRequest(url) == Some(op)
  {
    var q := url.query;
    match op
    case Status =>
    case Currencies =>
    case Latest(b, c) =>
      assert Names(q) == ["base_currency", "currencies"];
    case Historical(b, d, c) =>
      assert Names(q) == ["base_currency", "date", "currencies"];
    case Convert(b, d, v, c) =>
      assert Names(q) == ["base_currency", "date", "value", "currencies"];
      I8RoundTrip(v);
    case Range(b, s, e, c, a) =>
      assert Names(q) == ["base_currency", "datetime_start", "datetime_end", "accuracy", "currencies"];
  }

  /** Two different calls never send the same request. */
  lemma RequestInjective(op1: Operation, op2: Operation)
    requires Request(Some(BaseUrl), op1) == Request(Some(BaseUrl), op2)
    ensures op1 == op2
  {
    DecodeRequestRoundTrip(op1);
    DecodeRequestRoundTrip(op2);
  }

  /** `status` and `currencies` send no query at all. */
  lemma NoQueryForStatusAndCurrencies(op: Operation)
    requires op.Status? || op.Currencies?
    ensures Request(Some(BaseUrl), op).value.query == []
    ensures Request(Some(BaseUrl), op).value.path == if op.Status? then "/v3/status" else "/v3/currencies"
  {
    RequestShape(op);
    BareSegmentPaths();
  }

  lemma BareSegmentPaths()
    ensures BasePath + PathSegment(Status) == "/v3/status"
    ensures BasePath + PathSegment(Currencies) == "/v3/currencies"
  {
    assert BasePath + "status" == "/v3/status";
    assert BasePath + "currencies" == "/v3/currencies";
  }

  /** Every argument of the call is in the query under its own name, unchanged. */
  lemma ArgumentsByName(op: Operation)
    ensures var q := QueryPairs(op);
      match op
      case Status => q == []
      case Currencies => q == []
      case Latest(b, c) =>
        Lookup(q, "base_currency") == Some(b) && Lookup(q, "currencies") == Some(c)
      case Historical(b, d, c) =>
        Lookup(q, "base_currency") == Some(b) && Lookup(q, "date") == Some(d) && Lookup(q, "currencies") == Some(c)
      case Convert(b, d, v, c) =>
        Lookup(q, "base_currency") == Some(b) && Lookup(q, "date") == Some(d)
        && Lookup(q, "value") == Some(I8ToString(v)) && Lookup(q, "currencies") == Some(c)
      case Range(b, s, e, c, a) =>
        Lookup(q, "base_currency") == Some(b) && Lookup(q, "datetime_start") == Some(s)
        && Lookup(q, "datetime_end") == Some(e) && Lookup(q, "accuracy") == Some(a)
        && Lookup(q, "currencies") == Some(c)
  {
    // The names of one operation are all different, so each is found at its own position.
    match op
    case Status =>
    case Currencies =>
    case Latest(b, c) => LatestArguments(b, c);
    case Historical(b, d, c) => HistoricalArguments(b, d, c);
    case Convert(b, d, v, c) => ConvertArguments(b, d, v, c);
    case Range(b, s, e, c, a) => RangeArguments(b, s, e, c, a);
  }

  lemma LatestArguments(b: string, c: string)
    ensures var q := QueryPairs(Latest(b, c));
      Lookup(q, "base_currency") == Some(b) && Lookup(q, "currencies") == Some(c)
  {
    var q := QueryPairs(Latest(b, c));
    LookupFirst(q, "base_currency", 0);
    LookupFirst(q, "currencies", 1);
  }

  lemma HistoricalArguments(b: string, d: string, c: string)
    ensures var q := QueryPairs(Historical(b, d, c));
      Lookup(q, "base_currency") == Some(b) && Lookup(q, "date") == Some(d) && Lookup(q, "currencies") == Some(c)
  {
    var q := QueryPairs(Historical(b, d, c));
    LookupFirst(q, "base_currency", 0);
    LookupFirst(q, "date", 1);
    LookupFirst(q, "currencies", 2);
  }

  lemma ConvertArguments(b: string, d: string, v: I8, c: string)
    ensures var q := QueryPairs(Convert(b, d, v, c));
      Lookup(q, "base_currency") == Some(b) && Lookup(q, "date") == Some(d)
      && Lookup(q, "value") == Some(I8ToString(v)) && Lookup(q, "currencies") == Some(c)
  {
    var q := QueryPairs(Convert(b, d, v, c));
    LookupFirst(q, "base_currency", 0);
    LookupFirst(q, "date", 1);
    LookupFirst(q, "value", 2);
    LookupFirst(q, "currencies", 3);
  }

  lemma RangeArguments(b: string, s: string, e: string, c: string, a: string)
    ensures var q := QueryPairs(Range(b, s, e, c, a));
      Lookup(q, "base_currency") == Some(b) && Lookup(q, "datetime_start") == Some(s)
      && Lookup(q, "datetime_end") == Some(e) && Lookup(q, "accuracy") == Some(a)
      && Lookup(q, "currencies") == Some(c)
  {
    var q := QueryPairs(Range(b, s, e, c, a));
    LookupFirst(q, "base_currency", 0);
    LookupFirst(q, "datetime_start", 1);
    LookupFirst(q, "datetime_end", 2);
    LookupFirst(q, "accuracy", 3);
    LookupFirst(q, "currencies", 4);
  }

  /** `range` sends accuracy before currencies although accuracy is its last argument. */
  lemma RangeAccuracyBeforeCurrencies(b: string, s: string, e: string, c: string, a: string)
    ensures var q := Request(Some(BaseUrl), Range(b, s, e, c, a)).value.query;
      |q| == 5 && q[3] == ("accuracy", a) && q[4] == ("currencies", c)
  {
    RequestShape(Range(b, s, e, c, a));
  }

  /** The amount of `convert` reads back as the same integer, within [-128, 127]. */
  lemma ConvertValueReadsBack(b: string, d: string, v: I8, c: string)
    ensures var q := Request(Some(BaseUrl), Convert(b, d, v, c)).value.query;
      |q| == 4 && q[2].0 == "value" && ParseInt(q[2].1) == Some(v as int)
      && -128 <= v as int <= 127
  {
    RequestShape(Convert(b, d, v, c));
    IntRoundTrip(v as int);
  }

  /** No operation appends a query pair named "apikey": the key is never attached. */
  lemma ApiKeyNeverSent(op: Operation)
    ensures Lookup(QueryPairs(op), "apikey") == None
  {
    var q := QueryPairs(op);
    assert "apikey" !in Names(q) by {
      match op
      case Status =>
      case Currencies =>
      case Latest(_, _) =>
        assert Names(q) == ["base_currency", "currencies"];
      case Historical(_, _, _) =>
        assert Names(q) == ["base_currency", "date", "currencies"];
      case Convert(_, _, _, _) =>
        assert Names(q) == ["base_currency", "date", "value", "currencies"];
      case Range(_, _, _, _, _) =>
        assert Names(q) == ["base_currency", "datetime_start", "datetime_end", "accuracy", "currencies"];
    }
    forall i | 0 <= i < |q|
      ensures q[i].0 != "apikey"
    {
      assert q[i].0 == Names(q)[i];
    }
    LookupNone(q, "apikey");
  }

  // ---------------------------------------------------------------------------
  // The error mapping

  /** Only these errors can come out of an operation; client construction errors cannot. */
  lemma OutcomeErrorKinds(ext: Externals, op: Operation)
    ensures var r := Outcome(ext, op);
      r.Err? ==> r.error.UrlConstruction? || r.error.RequestError? || r.error.ResponseParsingError?
    ensures Outcome(ext, op) == Err(UrlConstruction) <==> ext.parsedBase.None?
  {
  }

  /** When sending or reading fails, the body is never parsed: the parser makes no difference. */
  lemma TransportFailureSkipsParsing(ext: Externals, op: Operation, otherParser: string -> Option<DetailsResponse>)
    requires ext.parsedBase.Some?
    requires !ext.send(Request(ext.parsedBase, op).value).Body?
    ensures Outcome(ext, op) == Err(RequestError(ext.send(Request(ext.parsedBase, op).value).source))
    ensures Outcome(ext.(parseJson := otherParser), op) == Outcome(ext, op)
  {
  }

  /** A ResponseParsingError carries exactly the body received, and only an unparsable body gives one. */
  lemma ParsingErrorCarriesBody(ext: Externals, op: Operation, body: string)
    ensures Outcome(ext, op) == Err(ResponseParsingError(body)) <==>
      ext.parsedBase.Some?
      && ext.send(Request(ext.parsedBase, op).value) == Body(body)
      && ext.parseJson(body).None?
  {
  }

  /** A successful call returns exactly the parse of the body received. */
  lemma SuccessIsParsedBody(ext: Externals, op: Operation)
    requires Outcome(ext, op).Ok?
    ensures ext.parsedBase.Some?
    ensures var reply := ext.send(Request(ext.parsedBase, op).value);
      reply.Body? && ext.parseJson(reply.text) == Some(Outcome(ext, op).value)
  {
  }
}
