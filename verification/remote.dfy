/** Values shared by every remote client: optional values, the failure a call
    can end in, the outcome of a call, and the shape of an HTTP request. */
module Remote {

  datatype Option<+T> = None | Some(value: T)

  /** What a rejected call carries. An `HttpError` is an AxiosError; its
      status is absent when no response arrived (a network failure). */
  datatype Failure = HttpError(status: Option<int>) | OtherError(message: string)

  /** The settled outcome of a remote call: resolved with a value or rejected. */
  datatype Result<+T> = Ok(value: T) | Err(error: Failure)

  datatype HttpMethod = GET | POST | DELETE

  /** A query-string parameter: the clients only send numbers and strings. */
  datatype ParamValue = IntParam(n: int) | StrParam(s: string)

  /** An HTTP request as the clients build it; `body` is the JSON object sent,
      from which undefined members are dropped. */
  datatype HttpRequest = HttpRequest(
    verb: HttpMethod,
    path: string,
    authorization: string,
    params: map<string, ParamValue>,
    body: map<string, string>)

  const BearerPrefix: string := "bearer "

  /** The Authorization header value for a token. */
  function Bearer(authToken: string): (h: string)
    ensures |h| == |BearerPrefix| + |authToken|
    ensures h[..|BearerPrefix|] == BearerPrefix && h[|BearerPrefix|..] == authToken
  {
    BearerPrefix + authToken
  }

  /** The token a server reads back from a bearer Authorization header. */
  function TokenOf(header: string): Option<string>
  {
    if |header| >= |BearerPrefix| && header[..|BearerPrefix|] == BearerPrefix
    then Some(header[|BearerPrefix|..])
    else None
  }

  /** Nothing of the token is lost in the header. */
  lemma BearerRoundTrip(authToken: string)
    ensures TokenOf(Bearer(authToken)) == Some(authToken)
  {
  }
}
