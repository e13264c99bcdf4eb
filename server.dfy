/**
 * The movie endpoints and the protected route of the backend. Each movie
 * handler checks its query parameters, builds the OMDb URL, asks OMDb once,
 * and maps the answer to a reply. `fetch` stands for the network call plus
 * `response.json()`, and `encode` for `encodeURIComponent`; the API key is
 * configuration handed in.
 */
module Server {
  import opened Wrappers
  import opened JsText
  import opened Http
  import opened Crypto
  import AuthMiddleware

  const SearchParamMissing := Reply(400, Message("Parameter pencarian (s) diperlukan."))
  const SearchUpstreamFailed := Reply(500, Message("Gagal mengambil data film dari OMDb API."))
  const DetailsParamMissing := Reply(400, Message("Parameter judul (t) atau ID (i) diperlukan."))
  const DetailsNotFound := "Film tidak ditemukan di OMDb."
  const DetailsUpstreamFailed := Reply(500, Message("Gagal mengambil detail film dari OMDb API."))
  const ProtectedGreeting := "Anda berhasil mengakses rute yang dilindungi, user ID: "

  /** The reply of `/api/movies/search` once OMDb has been asked: whatever
      OMDb answered, relayed with status 200, or 500 when asking failed. */
  function SearchReply(answer: Upstream): (r: Reply)
    ensures r.status == 200 <==> answer.Ok?
    ensures answer.Ok? ==> r.body == Json(answer.json)
    ensures answer.Fail? ==> r == SearchUpstreamFailed
  {
    match answer
    case Ok(data) => Reply(200, Json(data))
    case Fail => SearchUpstreamFailed
  }

  /** The reply of `/api/movies/details` once OMDb has been asked: the
      object relayed only when its `Response` is "True"; otherwise 404 with
      OMDb's `Error` or a default text; 500 when asking failed. */
  function DetailsReply(answer: Upstream): (r: Reply)
    ensures r.status == 200 <==> answer.Ok? && Found(answer.json)
    ensures r.status == 200 ==> r.body == Json(answer.json)
    ensures answer.Ok? && !Found(answer.json) ==>
      r == Reply(404, Message(Or(answer.json.error, DetailsNotFound)))
    ensures answer.Fail? ==> r == DetailsUpstreamFailed
    ensures r.status in {200, 404, 500}
  {
    match answer
    case Ok(data) =>
      if data.response == Some("True") then Reply(200, Json(data))
      else Reply(404, Message(Or(data.error, DetailsNotFound)))
    case Fail => DetailsUpstreamFailed
  }

  /** `GET /api/movies/search?s=...`: without a search term, 400 and no call
      to OMDb; with one, exactly one call carrying the encoded term and the
      API key. */
  method SearchMovies(s: Option<string>, apiKey: string, encode: string -> string, fetch: string -> Upstream)
    returns (reply: Reply, requested: seq<string>)
    ensures !Truthy(s) ==> reply == SearchParamMissing && requested == []
    ensures Truthy(s) ==>
      && requested == ["http://www.omdbapi.com/?s=" + encode(s.value) + "&apikey=" + apiKey]
      && reply == SearchReply(fetch(requested[0]))
  {
    requested := [];
    if !Truthy(s) {
      return SearchParamMissing, requested;
    }
    var url := "http://www.omdbapi.com/?s=" + encode(s.value) + "&apikey=" + apiKey;
    requested := requested + [url];
    var answer := fetch(url);
    reply := SearchReply(answer);
  }

  /** `GET /api/movies/details?t=...&i=...`: with neither parameter, 400 and
      no call to OMDb; otherwise one call, by title when `t` is given (and
      `i` is then ignored), by id only when `t` is not. */
  method MovieDetails(t: Option<string>, i: Option<string>, apiKey: string, encode: string -> string, fetch: string -> Upstream)
    returns (reply: Reply, requested: seq<string>)
    ensures !Truthy(t) && !Truthy(i) ==> reply == DetailsParamMissing && requested == []
    ensures Truthy(t) ==>
      requested == ["http://www.omdbapi.com/?apikey=" + apiKey + "&t=" + encode(t.value)]
    ensures !Truthy(t) && Truthy(i) ==>
      requested == ["http://www.omdbapi.com/?apikey=" + apiKey + "&i=" + encode(i.value)]
    ensures Truthy(t) || Truthy(i) ==> |requested| == 1 && reply == DetailsReply(fetch(requested[0]))
  {
    requested := [];
    if !Truthy(t) && !Truthy(i) {
      return DetailsParamMissing, requested;
    }
    var url := "http://www.omdbapi.com/?apikey=" + apiKey;
    if Truthy(t) {
      url := url + "&t=" + encode(t.value);
    } else if Truthy(i) {
      url := url + "&i=" + encode(i.value);
    }
    requested := requested + [url];
    var answer := fetch(url);
    reply := DetailsReply(answer);
  }

  /** The message of `/api/protected`, naming the id the gate put in `req.user`. */
  function Greeting(id: UserId): (r: Reply)
    ensures r.status == 200 && r.body.Message?
    ensures |r.body.text| > |ProtectedGreeting|
    ensures r.body.text[..|ProtectedGreeting|] == ProtectedGreeting
  {
    Reply(200, Message(ProtectedGreeting + Decimal(id)))
  }

  /** The id can be read back from the greeting: distinct users get distinct messages. */
  lemma GreetingNamesUser(id: UserId)
    ensures var text := Greeting(id).body.text;
      AllDigits(text[|ProtectedGreeting|..]) && DecimalValue(text[|ProtectedGreeting|..]) == id
  {
    var text := Greeting(id).body.text;
    assert text[|ProtectedGreeting|..] == Decimal(id);
    DecimalRoundTrip(id);
  }

  /** `GET /api/protected`: the gate runs first; when it calls `next`, the
      route handler writes the greeting for `req.user`. */
  method ServeProtected(ex: AuthMiddleware.Exchange, verifier: string -> Option<UserId>)
    modifies ex
    ensures var g := AuthMiddleware.Gate(ex.authorization, verifier);
      ex.sent == old(ex.sent) + g.writes + (if g.user.Some? then [Greeting(g.user.value)] else [])
    ensures ex.nextCalls == old(ex.nextCalls) + AuthMiddleware.Gate(ex.authorization, verifier).nextCalls
    ensures var g := AuthMiddleware.Gate(ex.authorization, verifier);
      ex.user == if g.user.Some? then g.user else old(ex.user)
  {
    var before := ex.nextCalls;
    ex.Protect(verifier);
    if ex.nextCalls > before {
      AuthMiddleware.GateAdmitsOrRejects(ex.authorization, verifier);
      ex.sent := ex.sent + [Greeting(ex.user.value)];
    }
  }
}
