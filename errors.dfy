/// The client's error taxonomy: the variants of `Error` that the api functions
/// and the constructor return, the `Display` messages of the `MKSError`
/// variants, and the `From` conversions into them.
module Errors {
  import Json
  import opened Results

  const U16_LIMIT: int := 0x1_0000

  /// An HTTP status code as Rust's `u16` holds it.
  type StatusCode = n: nat | n < U16_LIMIT

  /// A `hyper::Error`, known to the model only by the text its `Display` writes.
  datatype HyperFault = HyperFault(text: string)

  /// A `tokio::time::Elapsed`, which carries nothing observable.
  datatype Elapsed = Elapsed

  datatype Error =
    | EndpointError
    | TokenError
    | EmptyTokenError
    | HttpError(status: StatusCode, body: string)
    | HyperError(fault: HyperFault)
    | RequestError
    | TimeoutError
    | UrlError
    | SerializeError(serializeCause: Json.JsonError)
    | DeserializeError(cause: Json.JsonError, body: string)
  {
    /// The variants declared by `MKSError`, the type that has a `Display` implementation.
    predicate HasMessage() {
      EndpointError? || EmptyTokenError? || HttpError? || HyperError? || RequestError? || TimeoutError? || UrlError?
    }

    /// The `MKSError` variants that carry no payload.
    predicate IsFixed() {
      EndpointError? || EmptyTokenError? || RequestError? || TimeoutError? || UrlError?
    }
  }

  type MksError = e: Error | e.HasMessage() witness EndpointError

  const HTTP_PREFIX: string := "bad status code: "
  const HTTP_SEPARATOR: string := ", error body: "
  const HYPER_PREFIX: string := "failed to make the request due to Hyper error: "

  /// `MKSError`'s `Display`.
  function Message(e: MksError): (m: string)
    ensures e.HttpError? ==> m == HTTP_PREFIX + Decimal(e.status) + HTTP_SEPARATOR + e.body
    ensures e.HyperError? ==> m == HYPER_PREFIX + e.fault.text
  {
    match e
    case EndpointError => "failed to parse base endpoint URL"
    case EmptyTokenError => "token cannot be empty"
    case HttpError(status, body) => HTTP_PREFIX + Decimal(status) + HTTP_SEPARATOR + body
    case HyperError(fault) => HYPER_PREFIX + fault.text
    case RequestError => "failed to build a new request"
    case TimeoutError => "request timed out"
    case UrlError => "failed to parse URL for request"
  }

  /// `From<hyper::Error>`.
  function FromHyper(fault: HyperFault): (e: MksError)
    ensures e.HyperError? && e.fault == fault
    ensures Message(e) == HYPER_PREFIX + fault.text
  {
    HyperError(fault)
  }

  /// `From<tokio::time::Elapsed>`.
  function FromElapsed(elapsed: Elapsed): (e: MksError)
    ensures e.TimeoutError?
    ensures Message(e) == "request timed out"
  {
    TimeoutError
  }

  /// The messages of the payload-free variants tell them apart.
  lemma FixedMessagesDistinct(a: MksError, b: MksError)
    requires a.IsFixed() && b.IsFixed()
    ensures Message(a) == Message(b) <==> a == b
  {
  }

  /// The fixed texts of the variants that carry no payload.
  lemma FixedMessages()
    ensures Message(EndpointError) == "failed to parse base endpoint URL"
    ensures Message(EmptyTokenError) == "token cannot be empty"
    ensures Message(RequestError) == "failed to build a new request"
    ensures Message(TimeoutError) == "request timed out"
    ensures Message(UrlError) == "failed to parse URL for request"
  {
  }

  // Decimal rendering of a status code, as `format!("{}", status)` writes it.

  predicate IsDigit(c: char) { '0' <= c <= '9' }

  function DigitChar(d: nat): char
    requires d < 10
  {
    ('0' as int + d) as char
  }

  function DigitValue(c: char): nat
    requires IsDigit(c)
  {
    c as int - '0' as int
  }

  /// The shortest decimal spelling of `n`.
  function Decimal(n: nat): (s: string)
    ensures |s| > 0 && forall i :: 0 <= i < |s| ==> IsDigit(s[i])
    ensures |s| > 1 ==> s[0] != '0'
  {
    if n < 10 then [DigitChar(n)] else Decimal(n / 10) + [DigitChar(n % 10)]
  }

  /// The number a string of digits spells.
  function DecimalValue(s: string): nat
    requires forall i :: 0 <= i < |s| ==> IsDigit(s[i])
  {
    if s == [] then 0 else DecimalValue(s[..|s| - 1]) * 10 + DigitValue(s[|s| - 1])
  }

  lemma {:induction false} DecimalRoundTrip(n: nat)
    ensures DecimalValue(Decimal(n)) == n
  {
    if n >= 10 {
      var s := Decimal(n);
      assert s[..|s| - 1] == Decimal(n / 10);
      DecimalRoundTrip(n / 10);
    }
  }

  /// The length of the longest run of digits that starts `s`.
  function DigitRun(s: string): (k: nat)
    ensures k <= |s|
    ensures forall i :: 0 <= i < k ==> IsDigit(s[i])
    ensures k < |s| ==> !IsDigit(s[k])
  {
    if s == [] || !IsDigit(s[0]) then 0
    else
      var k := 1 + DigitRun(s[1..]);
      assert forall i :: 1 <= i < k ==> s[i] == s[1..][i - 1];
      k
  }

  lemma {:induction false} DigitRunOfDigits(d: string, t: string)
    requires forall i :: 0 <= i < |d| ==> IsDigit(d[i])
    requires t != [] && !IsDigit(t[0])
    ensures DigitRun(d + t) == |d|
  {
    if d != [] {
      assert (d + t)[1..] == d[1..] + t;
      DigitRunOfDigits(d[1..], t);
    }
  }

  /// Reads a status code and a body back out of an `HttpError` message.
  function ParseHttpMessage(m: string): Option<(nat, string)> {
    if |m| < |HTTP_PREFIX| || m[..|HTTP_PREFIX|] != HTTP_PREFIX then None
    else
      var rest := m[|HTTP_PREFIX|..];
      var k := DigitRun(rest);
      var after := rest[k..];
      if k == 0 || |after| < |HTTP_SEPARATOR| || after[..|HTTP_SEPARATOR|] != HTTP_SEPARATOR then None
      else Some((DecimalValue(rest[..k]), after[|HTTP_SEPARATOR|..]))
  }

  /// The `HttpError` message embeds the status code and the body so that both
  /// can be read back: the body appears verbatim after the separator.
  lemma HttpMessageParses(status: StatusCode, body: string)
    ensures ParseHttpMessage(Message(HttpError(status, body))) == Some((status as nat, body))
  {
    var d := Decimal(status);
    var m := Message(HttpError(status, body));
    assert m == HTTP_PREFIX + (d + (HTTP_SEPARATOR + body));
    assert m[..|HTTP_PREFIX|] == HTTP_PREFIX;
    var rest := m[|HTTP_PREFIX|..];
    assert rest == d + (HTTP_SEPARATOR + body);
    DigitRunOfDigits(d, HTTP_SEPARATOR + body);
    assert rest[..|d|] == d;
    assert rest[|d|..] == HTTP_SEPARATOR + body;
    DecimalRoundTrip(status);
  }

  /// Two `HttpError`s with the same message have the same status code and body.
  lemma HttpMessageInjective(s1: StatusCode, b1: string, s2: StatusCode, b2: string)
    ensures Message(HttpError(s1, b1)) == Message(HttpError(s2, b2)) <==> s1 == s2 && b1 == b2
  {
    HttpMessageParses(s1, b1);
    HttpMessageParses(s2, b2);
  }
}
