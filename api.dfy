/** What the two route modules share: the outcome of a request handler and
    the truthiness test they apply to a request's `id`. */
module Api {
  import opened Seqs

  /** The body of a successful reply, or one of the two error replies
      (HTTP 400 for missing or invalid input, HTTP 404 for an unknown id). */
  datatype Reply<T> = Ok(value: T) | BadRequest | NotFound

  /** `!id` for a numeric id: true when the body has no id or the id is 0. */
  predicate MissingId(id: Option<int>)
  {
    id.None? || id.value == 0
  }
}
