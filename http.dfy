/** What the client's fetch calls can yield, as inputs to the model. */
module Http {
  import opened Wrappers

  /**
   * A rejected fetch (network failure), or a response: its HTTP status and
   * the outcome of response.json() (Failure with the SyntaxError message when
   * the body is not JSON).
   */
  datatype Reply<B> = Rejected(message: string) | Response(status: nat, body: Result<B, string>) {
    /** Response.ok: the status lies in 200-299. */
    predicate Ok() {
      Response? && 200 <= status <= 299
    }
  }
}
