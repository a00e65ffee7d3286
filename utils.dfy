/**
 * The URL builder and the HTTP client settings of src/utils.rs.
 *
 * A URL is kept as its parts. The path built here is the text handed to
 * `set_path`; `PlainPath` marks the paths the url crate stores exactly as
 * given, and every path the client requests is one of them
 * (`Api.RequestPathsPlain`).
 */
module Baseline {
  import opened Errors

  /** A parsed URL: scheme, host, path and the ordered query pairs. */
  datatype Url = Url(scheme: string, host: string, path: string, query: seq<(string, string)>)

  /** The path of the base URL. */
  const BasePath: string := "/v3/"

  /**
   * The parse of the literal base URL "https://api.currencyapi.com/v3/":
   * an https origin, the path "/v3/" and no query.
   */
  const BaseUrl: Url := Url("https", "api.currencyapi.com", BasePath, [])

  /** The HTTP client configuration the builder is given. */
  datatype Client = Client(userAgent: string, defaultHeaders: seq<(string, string)>)

  /** Every character is '/'. */
  predicate IsSlashes(s: string) {
    forall i :: 0 <= i < |s| ==> s[i] == '/'
  }

  /** The number of '/' the text starts with. */
  function LeadingSlashes(s: string): (k: nat)
    ensures k <= |s| && IsSlashes(s[..k])
    ensures k == |s| || s[k] != '/'
  {
    if s != [] && s[0] == '/' then
      var k := 1 + LeadingSlashes(s[1..]);
      assert s[..k] == [s[0]] + s[1..][..k - 1];
      k
    else 0
  }

  /** The number of '/' the text ends with. */
  function TrailingSlashes(s: string): (k: nat)
    ensures k <= |s| && forall i :: |s| - k <= i < |s| ==> s[i] == '/'
    ensures k == |s| || s[|s| - k - 1] != '/'
  {
    if s != [] && s[|s| - 1] == '/' then 1 + TrailingSlashes(s[..|s| - 1]) else 0
  }

  /** Every leading '/' removed; nothing else changes. */
  function TrimStartSlashes(s: string): (r: string)
    ensures |r| <= |s| && r == s[|s| - |r|..] && IsSlashes(s[..|s| - |r|])
    ensures r == [] || r[0] != '/'
  {
    s[LeadingSlashes(s)..]
  }

  /** Every trailing '/' removed; nothing else changes. */
  function TrimEndSlashes(s: string): (r: string)
    ensures |r| <= |s| && r == s[..|r|] && IsSlashes(s[|r|..])
    ensures r == [] || r[|r| - 1] != '/'
  {
    var r := s[..|s| - TrailingSlashes(s)];
    assert forall i :: 0 <= i < |s| - |r| ==> s[|r|..][i] == s[|r| + i];
    r
  }

  /**
   * The `format!` of construct_base_url: the base path without its trailing
   * slashes, one '/', and the sub-path without its leading slashes.
   */
  function JoinPath(basePath: string, subPath: string): string
  {
    TrimEndSlashes(basePath) + "/" + TrimStartSlashes(subPath)
  }

  /** The join puts exactly one '/' between the trimmed base path and the trimmed sub-path. */
  lemma JoinPathSeparator(basePath: string, subPath: string)
    ensures var j, k := JoinPath(basePath, subPath), |TrimEndSlashes(basePath)|;
      && k < |j|
      && j[..k] == TrimEndSlashes(basePath)
      && j[k] == '/'
      && (k == 0 || j[k - 1] != '/')
      && j[k + 1..] == TrimStartSlashes(subPath)
      && (k + 1 == |j| || j[k + 1] != '/')
  {
  }

  /** A character the url crate's `set_path` stores as it is in an https path. */
  predicate PathChar(c: char) {
    ('a' <= c <= 'z') || ('A' <= c <= 'Z') || ('0' <= c <= '9') || c == '/' || c == '-' || c == '_'
  }

  /**
   * A path made only of such characters: no dot segment, no backslash, no
   * control character and nothing `set_path` percent-encodes.
   */
  predicate PlainPath(p: string) {
    forall i :: 0 <= i < |p| ==> PathChar(p[i])
  }

  /**
   * construct_base_url. `parsedBase` is the outcome of parsing BASE_URL,
   * which the url crate decides; the rest cannot fail.
   */
  function ConstructBaseUrl(parsedBase: Option<Url>, withPath: Option<string>): (r: Result<Url>)
    ensures r.Err? <==> parsedBase.None?
    ensures r.Err? ==> r.error == UrlConstruction
    ensures r.Ok? ==> r.value.scheme == parsedBase.value.scheme && r.value.host == parsedBase.value.host
    ensures r.Ok? ==> r.value.query == parsedBase.value.query
    ensures r.Ok? && withPath.None? ==> r.value == parsedBase.value
  {
    match parsedBase
    case None => Err(UrlConstruction)
    case Some(url) =>
      match withPath
      case None => Ok(url)
      case Some(path) => Ok(url.(path := JoinPath(url.path, path)))
  }

  /** The user agent: the one supplied, or "/" (an empty name and an empty version). */
  function UserAgent(userAgent: Option<string>): (agent: string)
    ensures userAgent.None? ==> agent == "/"
    ensures userAgent.Some? ==> agent == userAgent.value
  {
    match userAgent
    case None => "" + "/" + ""
    case Some(a) => a
  }

  /**
   * construct_client. `buildFailure` is what the HTTP client builder reports:
   * None when it builds, the builder's error otherwise.
   */
  function ConstructClient(userAgent: Option<string>, buildFailure: Option<TransportError>): (r: Result<Client>)
    ensures r.Ok? <==> buildFailure.None?
    ensures r.Err? ==> r.error == ClientConstruction(buildFailure.value)
    ensures r.Ok? ==> r.value.userAgent == UserAgent(userAgent)
    ensures r.Ok? ==> r.value.defaultHeaders == [("content-type", "application/json")]
  {
    match buildFailure
    case Some(e) => Err(ClientConstruction(e))
    case None => Ok(Client(UserAgent(userAgent), [("content-type", "application/json")]))
  }

  // ---------------------------------------------------------------------------
  // Properties of the trimming and the join

  /** Slashes in front of a text add to the count of its leading slashes. */
  lemma {:induction false} LeadingSlashesAppend(pre: string, p: string)
    requires IsSlashes(pre)
    ensures LeadingSlashes(pre + p) == |pre| + LeadingSlashes(p)
  {
    if pre != [] {
      assert (pre + p)[1..] == pre[1..] + p;
      LeadingSlashesAppend(pre[1..], p);
    } else {
      assert pre + p == p;
    }
  }

  /** Extra slashes in front of a sub-path change nothing. */
  lemma LeadingSlashesIgnored(pre: string, p: string)
    requires IsSlashes(pre)
    ensures TrimStartSlashes(pre + p) == TrimStartSlashes(p)
  {
    LeadingSlashesAppend(pre, p);
    var k := LeadingSlashes(p);
    assert (pre + p)[|pre| + k..] == p[k..];
  }

  /** Slashes followed by a text that does not start with '/' trim to that text. */
  lemma TrimStartSlashesOf(pre: string, rest: string)
    requires IsSlashes(pre)
    requires rest == [] || rest[0] != '/'
    ensures TrimStartSlashes(pre + rest) == rest
  {
    LeadingSlashesIgnored(pre, rest);
  }

  /** The input is some slashes followed by exactly what is kept. */
  lemma TrimStartSlashesSplits(s: string)
    ensures var r := TrimStartSlashes(s);
      IsSlashes(s[..|s| - |r|]) && s == s[..|s| - |r|] + r
  {
    var r := TrimStartSlashes(s);
    assert s == s[..|s| - |r|] + s[|s| - |r|..];
  }

  /** Trimming twice is trimming once. */
  lemma TrimStartSlashesIdempotent(s: string)
    ensures TrimStartSlashes(TrimStartSlashes(s)) == TrimStartSlashes(s)
  {
  }

  /** The base path of BASE_URL loses its one trailing slash. */
  lemma BasePathTrimmed()
    ensures TrimEndSlashes(BasePath) == "/v3"
  {
    assert BasePath[|BasePath| - 1] == '/';
    assert BasePath[..|BasePath| - 1] == "/v3";
  }

  /** Joining onto "/v3/" gives "/v3", one '/', and the trimmed sub-path. */
  lemma JoinOntoBasePath(p: string)
    ensures JoinPath(BasePath, p) == "/v3" + "/" + TrimStartSlashes(p)
    ensures JoinPath(BasePath, p) == BasePath + TrimStartSlashes(p)
  {
    BasePathTrimmed();
    assert "/v3" + "/" == BasePath;
  }

  // ---------------------------------------------------------------------------
  // Properties of construct_base_url on the real base URL

  /** With no sub-path the path stays "/v3/". */
  lemma NoSubPathKeepsBasePath()
    ensures ConstructBaseUrl(Some(BaseUrl), None) == Ok(BaseUrl)
    ensures ConstructBaseUrl(Some(BaseUrl), None).value.path == "/v3/"
  {
  }

  /** With a sub-path `p` the path is "/v3" + "/" + `p` without its leading slashes. */
  lemma SubPathAppended(p: string)
    ensures ConstructBaseUrl(Some(BaseUrl), Some(p)).Ok?
    ensures ConstructBaseUrl(Some(BaseUrl), Some(p)).value.path == "/v3" + "/" + TrimStartSlashes(p)
    ensures ConstructBaseUrl(Some(BaseUrl), Some(p)).value.path == BasePath + TrimStartSlashes(p)
  {
    JoinOntoBasePath(p);
  }

  /** Every path built from BASE_URL starts with "/v3/". */
  lemma BasePrefixKept(withPath: Option<string>)
    ensures var r := ConstructBaseUrl(Some(BaseUrl), withPath);
      r.Ok? && |r.value.path| >= 4 && r.value.path[..4] == BasePath
  {
    if withPath.Some? {
      SubPathAppended(withPath.value);
    }
  }

  /** Exactly one '/' follows "/v3": what comes after "/v3/" never starts with '/'. */
  lemma OneSlashAfterBase(withPath: Option<string>)
    ensures var path := ConstructBaseUrl(Some(BaseUrl), withPath).value.path;
      |path| >= 4 && path[2] != '/' && path[3] == '/' && (|path| == 4 || path[4] != '/')
  {
    if withPath.Some? {
      SubPathAppended(withPath.value);
    }
  }

  /**
   * Only the leading slashes of the sub-path are dropped: the sub-path is
   * some slashes followed by exactly what follows "/v3/" in the result.
   */
  lemma SubPathKeptAfterLeadingSlashes(p: string)
    ensures var path := ConstructBaseUrl(Some(BaseUrl), Some(p)).value.path;
      && |path| >= 4 && |path| - 4 <= |p|
      && IsSlashes(p[..|p| - (|path| - 4)])
      && p == p[..|p| - (|path| - 4)] + path[4..]
  {
    SubPathAppended(p);
    TrimStartSlashesSplits(p);
  }

  /** A sub-path with no leading slash is recovered unchanged after "/v3/". */
  lemma SubPathRoundTrip(p: string)
    requires p == [] || p[0] != '/'
    ensures ConstructBaseUrl(Some(BaseUrl), Some(p)).value.path == BasePath + p
  {
    SubPathAppended(p);
    assert TrimStartSlashes(p) == p;
  }

  /** Any number of leading slashes on the sub-path gives the same URL. */
  lemma LeadingSlashesIrrelevant(parsedBase: Option<Url>, pre: string, p: string)
    requires IsSlashes(pre)
    ensures ConstructBaseUrl(parsedBase, Some(pre + p)) == ConstructBaseUrl(parsedBase, Some(p))
  {
    LeadingSlashesIgnored(pre, p);
  }

  /** A sub-path of slashes only, or an empty one, gives the same path as none: "/v3/". */
  lemma SlashOnlySubPathIsNoSubPath(pre: string)
    requires IsSlashes(pre)
    ensures ConstructBaseUrl(Some(BaseUrl), Some(pre)).value.path
         == ConstructBaseUrl(Some(BaseUrl), None).value.path
  {
    SubPathAppended(pre);
    TrimStartSlashesOf(pre, "");
    assert pre + "" == pre;
    assert BasePath + "" == BasePath;
  }

  /** "test/path" and "/test/path" both give the path "/v3/test/path". */
  lemma TestPathExamples(p: string)
    requires p == "test/path"
    ensures ConstructBaseUrl(Some(BaseUrl), Some(p)).value.path == "/v3/test/path"
    ensures ConstructBaseUrl(Some(BaseUrl), Some("/" + p)).value.path == "/v3/test/path"
  {
    SubPathRoundTrip(p);
    LeadingSlashesIrrelevant(Some(BaseUrl), "/", p);
    assert BasePath + p == "/v3/test/path";
  }

  /** A plain sub-path gives a plain path, which `set_path` stores unchanged. */
  lemma PlainSubPathStaysPlain(p: string)
    requires PlainPath(p)
    ensures PlainPath(ConstructBaseUrl(Some(BaseUrl), Some(p)).value.path)
  {
    SubPathAppended(p);
    var path := ConstructBaseUrl(Some(BaseUrl), Some(p)).value.path;
    var t := TrimStartSlashes(p);
    forall i | 0 <= i < |path|
      ensures PathChar(path[i])
    {
      if i >= |BasePath| {
        assert path[i] == t[i - |BasePath|] == p[|p| - |t| + i - |BasePath|];
      }
    }
  }

  /** With no user agent supplied the client identifies itself as "/". */
  lemma DefaultUserAgentIsSlash(buildFailure: Option<TransportError>)
    requires buildFailure.None?
    ensures ConstructClient(None, buildFailure) == Ok(Client("/", [("content-type", "application/json")]))
  {
  }
}
