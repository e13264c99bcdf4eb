/**
 * The decision logic of the home page: classifying a details answer from
 * the backend, keeping the default movies that have a poster, and choosing
 * between reloading the defaults and searching. `backend` stands for an
 * axios GET against the backend, by request path; `encode` for
 * `encodeURIComponent`.
 */
module HomePage {
  import opened Wrappers
  import opened JsText
  import opened Http
  import Server

  /** The twenty IMDb ids shown when nothing is searched, in display order. */
  const DefaultMovieIds: seq<string> := [
    "tt15398776", "tt15172688", "tt9362722", "tt10366206", "tt6718170",
    "tt1745960", "tt1630029", "tt9114286", "tt1877830", "tt10872600",
    "tt1160419", "tt9389998", "tt2953250", "tt6723592", "tt3460252",
    "tt1051906", "tt4154796", "tt7286456", "tt4520988", "tt6710474"]

  const DefaultLoadError := "Gagal memuat beberapa film default. Periksa konsol untuk detail."
  const SearchNotFound := "Film tidak ditemukan."
  const SearchBackendError := "Gagal mengambil data film dari backend. Coba lagi nanti."

  /** An axios request: it resolves with the body of a 2xx reply and rejects
      on any other status or on a network error. */
  datatype AxiosOutcome = Resolved(data: Body) | Rejected

  /** axios's default status test applied to a backend reply. */
  function Axios(r: Reply): (o: AxiosOutcome)
    ensures o.Resolved? <==> 200 <= r.status < 300
    ensures o.Resolved? ==> o.data == r.body
  {
    if 200 <= r.status < 300 then Resolved(r.body) else Rejected
  }

  /** `response.data.Response` and `response.data.Error`: only an OMDb
      object carries them. */
  function ResponseField(b: Body): Option<string>
  {
    if b.Json? then b.data.response else None
  }

  function ErrorField(b: Body): Option<string>
  {
    if b.Json? then b.data.error else None
  }

  /** `fetchMovieDetailsFromBackend`: the movie when the backend answered
      with an object whose `Response` is "True", and null otherwise,
      rejected requests included. */
  function DetailsFromBackend(o: AxiosOutcome): (m: Option<OmdbJson>)
    ensures m.Some? <==> o.Resolved? && ResponseField(o.data) == Some("True")
    ensures m.Some? ==> o.data == Json(m.value) && Found(m.value)
  {
    if o.Resolved? && ResponseField(o.data) == Some("True") then Some(o.data.data) else None
  }

  /** Through this backend the front end gets a movie exactly when OMDb
      found it; the backend's 404 makes axios reject, so the "not found"
      branch of `fetchMovieDetailsFromBackend` is reached only by rejection. */
  lemma DetailsThroughBackend(answer: Upstream)
    ensures DetailsFromBackend(Axios(Server.DetailsReply(answer)))
      == if answer.Ok? && Found(answer.json) then Some(answer.json) else None
    ensures Axios(Server.DetailsReply(answer)).Resolved? ==> Found(answer.json)
  {
  }

  /** The request path `fetchMovieDetailsFromBackend` uses for one id. */
  function DetailsPath(id: string, encode: string -> string): string
  {
    "/api/movies/details?i=" + encode(id)
  }

  /** What `Promise.all` yields: one classified answer per default id, in
      the order of the ids. A present result is a found movie, and it is
      exactly the body the backend answered for the id at that position;
      an absent one means that request was rejected or not found. */
  function DefaultResults(backend: string -> AxiosOutcome, encode: string -> string): (rs: seq<Option<OmdbJson>>)
    ensures |rs| == |DefaultMovieIds|
    ensures forall k :: 0 <= k < |rs| && rs[k].Some? ==>
      Found(rs[k].value) && backend(DetailsPath(DefaultMovieIds[k], encode)) == Resolved(Json(rs[k].value))
    ensures forall k :: 0 <= k < |rs| && rs[k].None? ==>
      var answer := backend(DetailsPath(DefaultMovieIds[k], encode));
      answer.Rejected? || ResponseField(answer.data) != Some("True")
  {
    var rs := seq(|DefaultMovieIds|, k requires 0 <= k < |DefaultMovieIds| =>
      DetailsFromBackend(backend(DetailsPath(DefaultMovieIds[k], encode))));
    assert forall k :: 0 <= k < |rs| && rs[k].Some? ==>
      backend(DetailsPath(DefaultMovieIds[k], encode)).Resolved?;
    rs
  }

  /** `movie && movie.Poster && movie.Poster !== 'N/A'`. */
  predicate Displayable(movie: Option<OmdbJson>)
  {
    movie.Some? && Truthy(movie.value.poster) && movie.value.poster.value != "N/A"
  }

  /** The displayable results, in their order. */
  function KeepDisplayable(results: seq<Option<OmdbJson>>): seq<OmdbJson>
  {
    if results == [] then []
    else
      var front := KeepDisplayable(results[..|results| - 1]);
      var last := results[|results| - 1];
      if Displayable(last) then front + [last.value] else front
  }

  /** The loop of `loadDefaultMovies`: walks the results in order and pushes
      every displayable one. */
  method CollectDisplayable(results: seq<Option<OmdbJson>>) returns (fetched: seq<OmdbJson>)
    ensures fetched == KeepDisplayable(results)
  {
    fetched := [];
    for k := 0 to |results|
      invariant fetched == KeepDisplayable(results[..k])
    {
      assert results[..k + 1][..k] == results[..k];
      var movie := results[k];
      if movie.Some? && Truthy(movie.value.poster) && movie.value.poster.value != "N/A" {
        fetched := fetched + [movie.value];
      }
    }
    assert results[..|results|] == results;
  }

  /** `indices` picks out `kept` from `results`, in increasing positions. */
  ghost predicate Picks(indices: seq<int>, kept: seq<OmdbJson>, results: seq<Option<OmdbJson>>)
  {
    && |indices| == |kept|
    && (forall a, b :: 0 <= a < b < |indices| ==> indices[a] < indices[b])
    && (forall a :: 0 <= a < |indices| ==> 0 <= indices[a] < |results| && results[indices[a]] == Some(kept[a]))
  }

  /** The positions of the displayable results, in increasing order. */
  ghost function KeptPositions(results: seq<Option<OmdbJson>>): seq<int>
  {
    if results == [] then []
    else
      var front := KeptPositions(results[..|results| - 1]);
      if Displayable(results[|results| - 1]) then front + [|results| - 1] else front
  }

  /** Positions that pick `kept` out of `results` still do so once one more
      result is appended. */
  lemma PicksExtend(indices: seq<int>, kept: seq<OmdbJson>, results: seq<Option<OmdbJson>>, next: Option<OmdbJson>)
    requires Picks(indices, kept, results)
    ensures Picks(indices, kept, results + [next])
    ensures next.Some? ==> Picks(indices + [|results|], kept + [next.value], results + [next])
  {
  }

  /** The kept list is a subsequence of the results: never longer, and the
      kept movies sit at increasing positions of the results. */
  lemma {:induction false} KeptIsSubsequence(results: seq<Option<OmdbJson>>)
    ensures |KeepDisplayable(results)| <= |results|
    ensures Picks(KeptPositions(results), KeepDisplayable(results), results)
  {
    if results != [] {
      var init := results[..|results| - 1];
      var last := results[|results| - 1];
      assert results == init + [last];
      KeptIsSubsequence(init);
      PicksExtend(KeptPositions(init), KeepDisplayable(init), init, last);
    }
  }

  /** A movie is kept exactly when it is among the results and displayable. */
  lemma {:induction false} KeptExactlyDisplayable(results: seq<Option<OmdbJson>>, m: OmdbJson)
    ensures m in KeepDisplayable(results) <==> Some(m) in results && Displayable(Some(m))
  {
    if results != [] {
      var init := results[..|results| - 1];
      KeptExactlyDisplayable(init, m);
      assert results == init + [results[|results| - 1]];
    }
  }

  /** The state `loadDefaultMovies` and `handleSearch` write. */
  class Page {
    var movies: seq<OmdbJson>
    var error: string

    constructor ()
      ensures movies == [] && error == ""
    {
      movies := [];
      error := "";
    }

    /** `loadDefaultMovies`: shows the displayable default movies, in the
        order of the ids, and sets the error exactly when none is left. */
    method LoadDefaultMovies(backend: string -> AxiosOutcome, encode: string -> string)
      modifies this
      ensures movies == KeepDisplayable(DefaultResults(backend, encode))
      ensures error == (if movies == [] then DefaultLoadError else "")
      ensures |movies| <= |DefaultMovieIds|
      ensures forall m :: m in movies ==> Found(m) && Displayable(Some(m))
    {
      error := "";
      var results := DefaultResults(backend, encode);
      var fetched := CollectDisplayable(results);
      KeptIsSubsequence(results);
      forall m | m in fetched
        ensures Found(m) && Displayable(Some(m))
      {
        KeptExactlyDisplayable(results, m);
      }
      movies := fetched;
      if |fetched| == 0 && |DefaultMovieIds| > 0 {
        error := DefaultLoadError;
      }
    }

    /** `handleSearch`: a term that trims to nothing reloads the default
        movies and sends no search; any other term sends one search for the
        trimmed term and shows its results, or an empty list and an error. */
    method HandleSearch(searchTerm: string, backend: string -> AxiosOutcome, encode: string -> string)
      returns (searched: Option<string>)
      modifies this
      ensures Trim(searchTerm) == "" ==>
        && searched == None
        && movies == KeepDisplayable(DefaultResults(backend, encode))
        && error == (if movies == [] then DefaultLoadError else "")
      ensures Trim(searchTerm) != "" ==>
        searched == Some("/api/movies/search?s=" + encode(Trim(searchTerm)))
      ensures Trim(searchTerm) != "" && backend(searched.value).Rejected? ==>
        movies == [] && error == SearchBackendError
      ensures Trim(searchTerm) != "" && backend(searched.value).Resolved? ==>
        var body := backend(searched.value).data;
        if ResponseField(body) == Some("True")
        then movies == (if body.data.search.Some? then body.data.search.value else []) && error == ""
        else movies == [] && error == Or(ErrorField(body), SearchNotFound)
    {
      var trimmed := Trim(searchTerm);
      if trimmed == "" {
        LoadDefaultMovies(backend, encode);
        return None;
      }
      error := "";
      var path := "/api/movies/search?s=" + encode(trimmed);
      searched := Some(path);
      var response := backend(path);
      match response
      case Rejected =>
        error := SearchBackendError;
        movies := [];
      case Resolved(body) =>
        if ResponseField(body) == Some("True") {
          movies := if body.data.search.Some? then body.data.search.value else [];
        } else {
          movies := [];
          error := Or(ErrorField(body), SearchNotFound);
        }
    }
  }
}
