/// The client handle `MKS` and its `Builder`: a token check, a base-endpoint
/// parse and a small configuration record with a default request timeout.
module Mks {
  import opened Results
  import Errors

  /// A `std::time::Duration` of whole seconds.
  datatype Duration = Duration(secs: nat)

  /// A configured Hyper client, compared only by identity.
  datatype HyperClient = HyperClient(id: nat)

  /// A parsed `url::Url`, known by its serialisation.
  datatype Url = Url(serialization: string)

  /// What the constructor takes from outside the library: `Url::parse`, the
  /// client a fresh HTTPS connector yields, and the Cargo package name and version.
  datatype Platform = Platform(
    parseUrl: string -> Option<Url>,
    freshClient: HyperClient,
    pkgName: string,
    pkgVersion: string)

  const DEFAULT_TIMEOUT: nat := 30

  datatype Builder = Builder(client: Option<HyperClient>, timeout: Duration) {
    /// `Builder::client`: use this Hyper client instead of a fresh one.
    function WithClient(c: HyperClient): (b: Builder)
      ensures b.client == Some(c)
      ensures b.timeout == timeout
    {
      this.(client := Some(c))
    }

    /// `Builder::timeout`: the request timeout.
    function WithTimeout(t: Duration): (b: Builder)
      ensures b.timeout == t
      ensures b.client == client
    {
      this.(timeout := t)
    }

    /// `Builder::build`: construct the client from this configuration.
    function Build(p: Platform, baseEndpoint: string, token: string): (r: Result<Mks, Errors.Error>)
      ensures token == [] ==> r == Err(Errors.TokenError)
      ensures r.Ok? <==> token != [] && p.parseUrl(baseEndpoint).Some?
      ensures r.Ok? ==> r.value.token == token && r.value.timeout == timeout
      ensures r.Ok? && client.Some? ==> r.value.client == client.value
    {
      WithBuilder(p, baseEndpoint, token, this)
    }
  }

  datatype Mks = Mks(
    client: HyperClient,
    token: string,
    baseEndpoint: Url,
    userAgent: string,
    timeout: Duration)

  /// `Builder::default`, which `MKS::builder` returns.
  function DefaultBuilder(): (b: Builder)
    ensures b.client == None
    ensures b.timeout == Duration(DEFAULT_TIMEOUT)
  {
    Builder(None, Duration(DEFAULT_TIMEOUT))
  }

  /// `MKS::user_agent`: the package name and version joined by a slash.
  function UserAgent(p: Platform): (ua: string)
    ensures |ua| == |p.pkgName| + 1 + |p.pkgVersion|
    ensures ua[..|p.pkgName|] == p.pkgName && ua[|p.pkgName|] == '/' && ua[|p.pkgName| + 1..] == p.pkgVersion
  {
    p.pkgName + "/" + p.pkgVersion
  }

  /// `MKS::with_builder`: the token is checked before the endpoint is parsed.
  function WithBuilder(p: Platform, baseEndpoint: string, token: string, builder: Builder): (r: Result<Mks, Errors.Error>)
    ensures token == [] ==> r == Err(Errors.TokenError)
    ensures token != [] && p.parseUrl(baseEndpoint).None? ==> r == Err(Errors.EndpointError)
    ensures r.Ok? <==> token != [] && p.parseUrl(baseEndpoint).Some?
    ensures r.Ok? ==> r.value.token == token && r.value.baseEndpoint == p.parseUrl(baseEndpoint).value
    ensures r.Ok? ==> r.value.userAgent == UserAgent(p) && r.value.timeout == builder.timeout
    ensures r.Ok? && builder.client.Some? ==> r.value.client == builder.client.value
    ensures r.Ok? && builder.client.None? ==> r.value.client == p.freshClient
  {
    if token == [] then Err(Errors.TokenError)
    else
      var endpoint :- ParseEndpoint(p, baseEndpoint);
      var client := match builder.client
        case Some(c) => c
        case None => p.freshClient;
      Ok(Mks(client, token, endpoint, UserAgent(p), builder.timeout))
  }

  /// `Url::parse(..).map_err(|_| Error::EndpointError)`.
  function ParseEndpoint(p: Platform, baseEndpoint: string): (r: Result<Url, Errors.Error>)
    ensures r.Ok? <==> p.parseUrl(baseEndpoint).Some?
    ensures r.Ok? ==> r.value == p.parseUrl(baseEndpoint).value
    ensures r.Err? ==> r.error == Errors.EndpointError
  {
    match p.parseUrl(baseEndpoint)
    case Some(u) => Ok(u)
    case None => Err(Errors.EndpointError)
  }

  /// `MKS::new`: the default builder.
  function New(p: Platform, baseEndpoint: string, token: string): (r: Result<Mks, Errors.Error>)
    ensures r == DefaultBuilder().Build(p, baseEndpoint, token)
    ensures r.Ok? ==> r.value.timeout == Duration(DEFAULT_TIMEOUT) && r.value.client == p.freshClient
  {
    WithBuilder(p, baseEndpoint, token, DefaultBuilder())
  }

  /// An empty token is rejected whatever the endpoint, even one that does not parse.
  lemma EmptyTokenFirst(p: Platform, baseEndpoint: string, builder: Builder)
    ensures builder.Build(p, baseEndpoint, []) == Err(Errors.TokenError)
    ensures New(p, baseEndpoint, []) == Err(Errors.TokenError)
  {
  }

  /// A builder whose timeout was set validates exactly as `new` does and differs
  /// from it only in the timeout.
  lemma TimeoutOnlyChangesTimeout(p: Platform, baseEndpoint: string, token: string, t: Duration)
    ensures var r := DefaultBuilder().WithTimeout(t).Build(p, baseEndpoint, token);
      var n := New(p, baseEndpoint, token);
      r.Ok? == n.Ok? && (r.Err? ==> r == n) && (r.Ok? ==> r.value == n.value.(timeout := t))
  {
  }

  /// A client handed to the builder is the one the constructed `MKS` uses.
  lemma SuppliedClientIsUsed(p: Platform, baseEndpoint: string, token: string, c: HyperClient)
    requires token != [] && p.parseUrl(baseEndpoint).Some?
    ensures DefaultBuilder().WithClient(c).Build(p, baseEndpoint, token).Ok?
    ensures DefaultBuilder().WithClient(c).Build(p, baseEndpoint, token).value.client == c
  {
  }

  /// The unit test `new_mks_default_builder`.
  lemma NewDefaultBuilderExample(p: Platform, u: Url)
    requires p.parseUrl("https://example.org") == Some(u)
    ensures New(p, "https://example.org", "token_a")
      == Ok(Mks(p.freshClient, "token_a", u, p.pkgName + "/" + p.pkgVersion, Duration(30)))
  {
  }

  /// The unit test `new_mks_with_builder`.
  lemma NewWithBuilderExample(p: Platform, u: Url)
    requires p.parseUrl("https://example.com") == Some(u)
    ensures DefaultBuilder().WithTimeout(Duration(10)).Build(p, "https://example.com", "token_b")
      == Ok(Mks(p.freshClient, "token_b", u, p.pkgName + "/" + p.pkgVersion, Duration(10)))
  {
  }
}
