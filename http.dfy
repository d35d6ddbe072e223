/**
 * What the two programs share on the wire: header names, the bearer form of
 * the credential, the control command, and an abstract request.
 */
module Http {

  newtype byte = x: int | 0 <= x < 256

  /** Request or dial headers, one value per name. */
  type Headers = map<string, string>

  const AuthorizationHeader: string := "Authorization"
  const ClientIdHeader: string := "X-Client-ID"
  const ContentTypeHeader: string := "Content-Type"
  const OctetStream: string := "application/octet-stream"
  const BearerPrefix: string := "Bearer "

  /** The only payload the coordinator sends on a control channel. */
  const DownloadCommand: string := "DOWNLOAD"

  /** A live control-channel handle; only its identity matters to the model. */
  class Conn { }

  datatype Request = Request(verb: string, url: string, headers: Headers, body: seq<byte>)

  /** `Header.Get`: the value of a header, or "" when it is absent. */
  function HeaderGet(h: Headers, name: string): string
  {
    if name in h then h[name] else ""
  }

  /** The `Authorization` value for a token: "Bearer " followed by the token. */
  function Bearer(token: string): (v: string)
    ensures |v| == |BearerPrefix| + |token|
    ensures v[..|BearerPrefix|] == BearerPrefix && v[|BearerPrefix|..] == token
  {
    BearerPrefix + token
  }

  /** A header value is the bearer form of `token` exactly when it splits as the prefix and the token. */
  lemma BearerSplit(v: string, token: string)
    ensures v == Bearer(token) <==>
              |v| >= |BearerPrefix| && v[..|BearerPrefix|] == BearerPrefix && v[|BearerPrefix|..] == token
  {
  }

  /** Distinct tokens give distinct header values. */
  lemma BearerInjective(a: string, b: string)
    requires Bearer(a) == Bearer(b)
    ensures a == b
  {
  }
}
