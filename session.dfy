/** The session guard each protected screen runs on mount. The token is the
    value of the `session` cookie at the moment of the check, or None when the
    cookie is absent. */
module Session {
  import opened Types

  /** JavaScript truthiness of a `string | null`: non-null and non-empty. */
  predicate Truthy(token: Option<string>)
  {
    token.Some? && token.value != []
  }

  /** The guard of the product list and the dashboard: `token && token.length > 0`. */
  predicate Admits(token: Option<string>): (ok: bool)
    ensures ok <==> Truthy(token)
  {
    Truthy(token) && |token.value| > 0
  }

  /** The rejecting guard of the user and cart lists, as written:
      `!token || token.length < 0`. */
  predicate RejectsAsWritten(token: Option<string>): (rejected: bool)
    ensures rejected <==> !Truthy(token)
  {
    !Truthy(token) || (token.Some? && |token.value| < 0)
  }

  /** Both spellings of the guard let a token through exactly when it is
      present and non-empty: the `length < 0` disjunct never holds. */
  lemma GuardsAgree(token: Option<string>)
    ensures Admits(token) <==> token.Some? && |token.value| > 0
    ensures RejectsAsWritten(token) <==> !Admits(token)
    ensures RejectsAsWritten(token) <==> token.None? || token.value == []
  {
  }
}
