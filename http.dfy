/**
 * What a browser `fetch` of a JSON endpoint can come back with, as the pages
 * see it. The network itself is not modelled: the outcome is an input.
 */
module Http {
  import opened JsonValue

  /** The body read with `res.json()`: a parsed value, or a SyntaxError with its message. */
  datatype JsonBody = Parsed(value: Json) | Malformed(message: string)

  /**
   * `Rejected`: `fetch` itself rejected with an Error (network failure).
   * `Received`: a response with its status, its body read as text
   * (`res.text()`) and its body read as JSON (`res.json()`).
   */
  datatype FetchResult =
    | Rejected(message: string)
    | Received(status: nat, text: string, json: JsonBody)

  /** `res.ok`. */
  predicate IsOk(status: nat) {
    200 <= status <= 299
  }

  /** A POST with a JSON body to `url`. */
  datatype Request = Request(url: string, body: Json)
}
