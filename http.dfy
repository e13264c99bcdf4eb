/**
 * What crosses the HTTP boundary: the JSON that OMDb answers with, the
 * outcome of asking OMDb for it, and the replies the backend writes.
 */
module Http {
  import opened Wrappers

  /** An OMDb JSON object, reduced to the properties the application reads:
      `Response` (the string "True" when something was found), `Error`,
      `Poster`, and `Search` (the result list of a search). Each is absent or
      a string (a list for `Search`). */
  datatype OmdbJson = OmdbJson(
    response: Option<string>,
    error: Option<string>,
    poster: Option<string>,
    search: Option<seq<OmdbJson>>)

  /** `data.Response === "True"`: strict equality with the string "True". */
  predicate Found(d: OmdbJson)
  {
    d.response == Some("True")
  }

  /** One `fetch` to OMDb followed by `response.json()`: either the parsed
      object, or a failure of either step (network error, unparsable body). */
  datatype Upstream = Ok(json: OmdbJson) | Fail

  /** The JSON body of a backend reply. */
  datatype Body =
    | Json(data: OmdbJson)                   // an OMDb object relayed as is
    | Message(text: string)                  // `{ message }`
    | MessageWithToken(text: string, token: string)  // `{ message, token }`

  /** `res.status(status).json(body)`; `res.json(body)` alone is status 200. */
  datatype Reply = Reply(status: int, body: Body)
}
