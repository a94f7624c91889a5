/// The pipeline every api function follows: build a request, perform it, and
/// decode the response body, mapping serde failures into the client's errors.
module Transport {
  import opened Results
  import opened Json
  import Errors

  datatype Method = Get | Post | Put | Delete

  /// A request as the client built it.
  datatype Request = Request(verb: Method, url: string, body: Option<string>)

  /// The client's two I/O primitives: `new_request` (which joins the path to the
  /// base endpoint and may fail) and `do_request` (which performs the request
  /// and yields the response body or an error).
  datatype Client = Client(
    newRequest: (Method, string, Option<string>) -> Result<Request, Errors.Error>,
    doRequest: Request -> Result<string, Errors.Error>)

  /// `new_request(..)?` followed by `do_request(req)?`.
  function Exchange(client: Client, verb: Method, path: string, body: Option<string>): (r: Result<string, Errors.Error>)
    ensures client.newRequest(verb, path, body).Err? ==> r == Err(client.newRequest(verb, path, body).error)
    ensures client.newRequest(verb, path, body).Ok? ==> r == client.doRequest(client.newRequest(verb, path, body).value)
  {
    var request :- client.newRequest(verb, path, body);
    client.doRequest(request)
  }

  /// `serde_json::from_str(&body).map_err(|err| Error::DeserializeError(err, body))`.
  function Decode<T>(serde: Serde, body: string, decode: Json -> Result<T, JsonError>): (r: Result<T, Errors.Error>)
    ensures r.Ok? <==> FromStr(serde, body, decode).Ok?
    ensures r.Ok? ==> r.value == FromStr(serde, body, decode).value
    ensures r.Err? ==> r.error == Errors.DeserializeError(FromStr(serde, body, decode).error, body)
  {
    FromStr(serde, body, decode).MapErr(err => Errors.DeserializeError(err, body))
  }

  /// `serde_json::to_string(&root).map_err(Error::SerializeError)`.
  function Serialize(serde: Serde, root: Json): (r: Result<string, Errors.Error>)
    ensures r.Ok? <==> serde.render(root).Ok?
    ensures r.Ok? ==> r.value == serde.render(root).value
    ensures r.Err? ==> r.error == Errors.SerializeError(serde.render(root).error)
  {
    serde.render(root).MapErr(err => Errors.SerializeError(err))
  }

  /// Every failure of a decoded response is either the transport's own error,
  /// passed on unchanged, or a `DeserializeError` that carries the body verbatim.
  lemma DecodedFailures<T>(client: Client, serde: Serde, verb: Method, path: string, body: Option<string>,
                           decode: Json -> Result<T, JsonError>)
    ensures var ex := Exchange(client, verb, path, body);
      ex.Ok? && Decode(serde, ex.value, decode).Err? ==>
        Decode(serde, ex.value, decode).error.DeserializeError? && Decode(serde, ex.value, decode).error.body == ex.value
  {
  }

  /// A failed exchange is reported the same way whatever the decoder would have done:
  /// no decoding takes place.
  lemma ExchangeFailureSkipsDecoding<T>(client: Client, serde1: Serde, serde2: Serde, verb: Method, path: string,
                                        body: Option<string>, decode: Json -> Result<T, JsonError>)
    requires Exchange(client, verb, path, body).Err?
    ensures Fetch(client, serde1, verb, path, body, decode) == Fetch(client, serde2, verb, path, body, decode)
    ensures Fetch(client, serde1, verb, path, body, decode) == Err(Exchange(client, verb, path, body).error)
  {
  }

  /// `r` is what a request with a decoded response yields: the exchange's own error
  /// unchanged, a `DeserializeError` carrying the decoder's error and the body
  /// verbatim, or the decoded value.
  ghost predicate Fetched<T>(r: Result<T, Errors.Error>, client: Client, serde: Serde, verb: Method, path: string,
                       body: Option<string>, decode: Json -> Result<T, JsonError>)
  {
    var ex := Exchange(client, verb, path, body);
    && (ex.Err? ==> r == Err(ex.error))
    && (ex.Ok? && FromStr(serde, ex.value, decode).Err? ==>
          r == Err(Errors.DeserializeError(FromStr(serde, ex.value, decode).error, ex.value)))
    && (ex.Ok? && FromStr(serde, ex.value, decode).Ok? ==> r == Ok(FromStr(serde, ex.value, decode).value))
  }

  /// `r` is what a request with a discarded response yields: the exchange's own
  /// error unchanged, or unit.
  predicate Sent(r: Result<(), Errors.Error>, client: Client, verb: Method, path: string, body: Option<string>) {
    var ex := Exchange(client, verb, path, body);
    && (ex.Err? ==> r == Err(ex.error))
    && (ex.Ok? ==> r == Ok(()))
  }

  /// A request whose response body is decoded.
  function Fetch<T>(client: Client, serde: Serde, verb: Method, path: string, body: Option<string>,
                    decode: Json -> Result<T, JsonError>): (r: Result<T, Errors.Error>)
    ensures Fetched(r, client, serde, verb, path, body, decode)
  {
    var text :- Exchange(client, verb, path, body);
    Decode(serde, text, decode)
  }

  /// A request whose response body is discarded.
  function Send(client: Client, verb: Method, path: string, body: Option<string>): (r: Result<(), Errors.Error>)
    ensures Sent(r, client, verb, path, body)
  {
    var _ :- Exchange(client, verb, path, body);
    Ok(())
  }
}
