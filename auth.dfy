/** CF::Auth (lib/cf/auth.rb): the bearer-token headers and the token check. */
module Auth {
  import opened Wrappers
  import opened Errors
  import opened Values

  /** A token as string interpolation renders it: nil renders as the empty string. */
  function TokenText(token: Option<string>): string
  {
    match token
    case None => ""
    case Some(t) => t
  }

  /**
   * `bearer_token_headers`: exactly an Authorization header carrying the token after
   * "Bearer " and a User-Agent header naming the SDK and its version.
   */
  function BearerTokenHeaders(token: Option<string>, version: string): (h: AList<string>)
    ensures Keys(h) == ["Authorization", "User-Agent"]
    ensures Lookup(h, "Authorization") == Some("Bearer " + TokenText(token))
    ensures Lookup(h, "User-Agent") == Some("CF Ruby SDK " + version)
  {
    [("Authorization", "Bearer " + TokenText(token)), ("User-Agent", "CF Ruby SDK " + version)]
  }

  /** `validate_token!`: raises AuthenticationError exactly for a nil or empty token. */
  function ValidateToken(token: Option<string>): (r: Result<(), SdkError>)
    ensures r.Failure? <==> token.None? || token.value == ""
    ensures r.Failure? ==> r.error == AuthenticationError("API token is required")
  {
    if token.None? || token.value == "" then Failure(AuthenticationError("API token is required"))
    else Success(())
  }
}
