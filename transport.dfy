/**
 * What one HTTP request of the bot can come back with, as the model sees it:
 * the `reqwest` client is an oracle that hands over predetermined outcomes.
 */
module Transport {

  /** An HTTP status code as the `http` crate admits it: three digits, 100 to 999. */
  type StatusCode = n: int | 100 <= n <= 999 witness 200

  /** `StatusCode::is_success`: 200 to 299. */
  predicate IsSuccess(s: StatusCode) {
    200 <= s <= 299
  }

  /** `StatusCode::is_server_error`: 500 to 599. */
  predicate IsServerError(s: StatusCode) {
    500 <= s <= 599
  }

  /** What decoding a response body as `{"access_token": ...}` gives. */
  datatype LoginBody = AccessToken(token: string) | Undecodable

  /**
   * The result of `send()`: no response at all (connection refused, DNS,
   * timeout), or a status line and a body.
   */
  datatype HttpOutcome = TransportError | Response(status: StatusCode, body: LoginBody)
}
