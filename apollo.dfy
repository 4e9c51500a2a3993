/**
 * The pure parts of the GraphQL client wrapper: the bearer prefix of the
 * authorization header and the error check after a query or mutation.
 */
module Apollo {
  import opened Wrappers
  import opened Strings

  /** The `authorization` header value `withAuthHeader(token)` puts in the request context. */
  function WithAuthHeader(token: string): (header: string)
    ensures StartsWith(header, "Bearer")
  {
    if StartsWith(token, "Bearer") then token else "Bearer " + token
  }

  /** A token that already starts with "Bearer" is passed through unchanged. */
  lemma PrefixedTokenUnchanged(token: string)
    requires StartsWith(token, "Bearer")
    ensures WithAuthHeader(token) == token
  {
  }

  /** Any other token gets "Bearer " (with a space) in front of it. */
  lemma BareTokenPrefixed(token: string)
    requires !StartsWith(token, "Bearer")
    ensures WithAuthHeader(token) == "Bearer " + token
  {
  }

  /** Normalising twice is the same as normalising once. */
  lemma WithAuthHeaderIdempotent(token: string)
    ensures WithAuthHeader(WithAuthHeader(token)) == WithAuthHeader(token)
  {
  }

  /** The prefix test has no trailing space: "Bearerxyz" is not given a second prefix. */
  lemma NoSpaceRequiredAfterBearer()
    ensures WithAuthHeader("Bearerxyz") == "Bearerxyz"
  {
  }

  /** One entry of a GraphQL `errors` list. */
  datatype GraphQLError = GraphQLError(message: string)

  /**
   * The check shared by `linearQuery` and `linearMutation`: a non-empty
   * `errors` list throws an error carrying the first message; an absent or
   * empty list returns `data`.
   */
  function CheckErrors<T>(data: T, errors: Option<seq<GraphQLError>>): (r: Result<T, string>)
    ensures r.Ok? <==> (errors == None || errors.value == [])
    ensures r.Ok? ==> r.value == data
    ensures r.Err? ==> r.error == errors.value[0].message
  {
    if errors.Some? && |errors.value| > 0 then Err(errors.value[0].message) else Ok(data)
  }
}
