/** The HTTP header names and values the REST client sends. */
module HTTPHeaders {

  const ContentTypeKey: string := "Content-Type"
  const AuthorizationKey: string := "Authorization"
  const AcceptKey: string := "Accept"
  const UserAgentKey: string := "User-Agent"

  const ApplicationJSON: string := "application/json"
  const UserAgent: string := "Phan Anh Tran"

  const BearerScheme: string := "Bearer "

  /**
   * `HTTPHeader.Value.bearer(jwt:)`: the token after the "Bearer" scheme and
   * one space, unchanged and unchecked.
   */
  function Bearer(jwt: string): (r: string)
    ensures |r| == |BearerScheme| + |jwt|
    ensures r[..|BearerScheme|] == BearerScheme && r[|BearerScheme|..] == jwt
  {
    BearerScheme + jwt
  }

  /** Different tokens give different header values: the token can be read back. */
  lemma BearerInjective(a: string, b: string)
    requires Bearer(a) == Bearer(b)
    ensures a == b
  {
    assert a == Bearer(a)[|BearerScheme|..];
  }

  /** The four header names are pairwise different, so no header overwrites another. */
  lemma HeaderKeysDistinct()
    ensures |{ContentTypeKey, AuthorizationKey, AcceptKey, UserAgentKey}| == 4
  {
    assert ContentTypeKey != AuthorizationKey && ContentTypeKey != AcceptKey && ContentTypeKey != UserAgentKey;
    assert AuthorizationKey != AcceptKey && AuthorizationKey != UserAgentKey && AcceptKey != UserAgentKey;
  }
}
