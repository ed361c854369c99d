/** A scripted HTTP exchange: what one `fetch` and the following
    `response.json()` did. */
module Http {

  /** The body as `response.json()` sees it: parsed, or a parse that throws. */
  datatype Body<J> = Unparsable(reason: string) | Json(json: J)

  /** `fetch` either rejects (a network error) or resolves to a response
      whose `ok` flag says whether the status was 2xx. */
  datatype Response<J> = Threw(reason: string) | Replied(ok: bool, body: Body<J>)

  /** The parsed body of a response that is `ok`, if it parses. */
  predicate OkJson<J>(r: Response<J>) {
    r.Replied? && r.ok && r.body.Json?
  }
}
