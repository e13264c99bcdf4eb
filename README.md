# Cinelist: a Dafny model of its decision logic

Cinelist is a movie-browsing web application. An Express backend registers
and logs in users against a `users` table, guards a protected route with a
bearer token, and proxies two OMDb endpoints (search and details). A React
front end shows a curated list of default movies and lets the user search.

This project models the sequential decision logic of four files:

- `backend/controllers/userController.js`: `registerUser` and `loginUser`, as
  the class `UserController.AccountStore`. It holds a map from username to
  `(id, passwordHash)` and an id counter. `Register` states the whole new
  state on every path. `Login` has no `modifies` clause, so it cannot change
  the store.
- `backend/middleware/authMiddleware.js`: `protect`, as
  `AuthMiddleware.Exchange.Protect`. The method follows the source step by
  step, with the mutable `token` variable. Its effect is tied to `Gate`, a case
  table over the header, and the lemmas state the gate's properties on that
  table.
- `backend/server.js`: the `/api/movies/search`, `/api/movies/details` and
  `/api/protected` handlers. Parameter checks and URL building are methods
  that return the reply and the list of OMDb URLs requested. Status mapping is
  done by the functions `SearchReply` and `DetailsReply`.
- `frontend/src/pages/HomePage.js`: the classification in
  `fetchMovieDetailsFromBackend`, the filter loop of `loadDefaultMovies`
  (`CollectDisplayable`, proved against `KeepDisplayable`), and the branch
  logic of `handleSearch` (class `HomePage.Page`).

Libraries are abstract values, not code:

- bcrypt is `Crypto.Hasher` (`hash`, `compare`). The only fact used about it is
  `HasherSound`: a password matches its own hash for every salt.
- jsonwebtoken is `Crypto.Jwt` (`sign`, `verify`). `JwtSound` says a signed
  token verifies under the same key strictly before its `exp` claim and not
  after (section 4.1.4 of RFC 7519). It also says the compact form is
  non-empty and contains no space.
- Token claims are `Crypto.Token(id, issuedAt, expiresAt)`. The library adds
  `iat` by default, and `expiresIn: '1h'` makes `exp = iat + 3600`.
- OMDb is a function from URL to `Upstream` (`Ok(json)` or `Fail`).
  `encodeURIComponent` is a function parameter. The backend as seen from the
  browser is a function from request path to an axios outcome.
- Randomness (the bcrypt salt), the clock (`now`, in whole seconds) and a
  failing database (`storeFails`) are parameters.

JavaScript primitives that the decisions depend on are written out in
`JsText`:

- `split(' ')`, with the round trip `Join(Split(s)) == s` and its converse;
- `trim()`, using ECMAScript's exact whitespace set;
- `startsWith`;
- truthiness of a string field;
- the decimal text a template literal gives a user id.

Two behaviours of the gate that a reader may not expect; the model keeps
both as written:

- Some headers make the gate write two 401 replies. When the header starts
  with `Bearer` but `split(' ')[1]` is undefined or empty (`"Bearer"`,
  `"Bearerxyz"`, `"Bearer  x"`), two writes follow. The failed verification
  writes "token gagal" in the `catch` block, and then the `!token` test
  writes "tidak ada token". The model's trace `sent` records every
  `res.status(..).json(..)` call the gate makes, so both writes appear. At
  run time the second call reaches Express after the first reply's headers
  were sent, and Node's HTTP layer refuses to set headers again
  (`ERR_HTTP_HEADERS_SENT`). So the client only receives the first reply.
- The prefix test accepts headers the Bearer scheme does not. Section 2.1
  of RFC 6750 writes the credentials as `Bearer`, one space, then the
  token. The code's `startsWith('Bearer')` is case-sensitive and needs no
  following space.

## Model

| member | source | states |
|---|---|---|
| JsText.Split | backend/middleware/authMiddleware.js:9 | `split(' ')` always yields at least one piece and no piece contains the separator |
| JsText.JoinSplit | backend/middleware/authMiddleware.js:9 | joining the pieces of a split with the separator gives the original header back |
| JsText.SplitJoin | backend/middleware/authMiddleware.js:9 | splitting a join of separator-free pieces gives exactly those pieces |
| JsText.TrimStart | frontend/src/pages/HomePage.js:81 | the result is the suffix starting at the first non-whitespace character; everything dropped is whitespace |
| JsText.TrimEnd | frontend/src/pages/HomePage.js:81 | the result is the prefix ending at the last non-whitespace character; everything dropped is whitespace |
| JsText.TrimEmptyIffBlank | frontend/src/pages/HomePage.js:81-83 | a search term trims to `''` exactly when every character is JavaScript whitespace |
| JsText.Decimal | backend/server.js:79 | the text of a user id is non-empty, all digits, and has no leading zero |
| JsText.DecimalRoundTrip | backend/server.js:79 | reading back the decimal text of an id gives the id |
| Crypto.IssueToken | backend/controllers/userController.js:51 | the signed claims carry the user's id and expire exactly 3600 s after issue |
| UserController.AccountStore.Register | backend/controllers/userController.js:6-29 | a missing field gives 400 with the store unchanged; a database failure gives 500 with the store unchanged; a taken username gives 409 with the store unchanged, whatever the password; otherwise 201 and exactly one new row for that username holding the counter's id and `hash(password, salt)`; unique ids are kept |
| UserController.AccountStore.Login | backend/controllers/userController.js:31-58 | never modifies the store; a missing field gives 400 without the store being consulted, even when the database is failing; an unknown username and a wrong password give the same 400 "Username atau password salah."; a match gives 200 with a token signed over the stored id, issued now, expiring one hour later |
| UserController.RegisterThenLogin | backend/controllers/userController.js:19-53 | with only the hasher axiom, registering a fresh username and logging in with the same password succeeds with a token for the new id |
| UserController.RegisterTwice | backend/controllers/userController.js:14-24 | a second registration of a username gives 409 whatever its password, and the first record stays as it was |
| AuthMiddleware.TokenPart | backend/middleware/authMiddleware.js:9 | `split(' ')[1]` is undefined exactly when the header has no space; otherwise it is the space-free text between the first space and the next space or the end |
| AuthMiddleware.VerifyToken | backend/middleware/authMiddleware.js:10 | an undefined or empty token never verifies; any other token yields exactly the verifier's answer |
| AuthMiddleware.Exchange.Protect | backend/middleware/authMiddleware.js:4-21 | the replies appended, the `next` calls and `req.user` are exactly those of the case table `Gate` for the request's header |
| AuthMiddleware.GateAdmitsOrRejects | backend/middleware/authMiddleware.js:7-20 | `next` runs at most once; it runs iff nothing is written iff `req.user` is set; every write is a 401 |
| AuthMiddleware.GateAdmitsExactlyVerified | backend/middleware/authMiddleware.js:9-12 | `next` runs iff the header is Bearer-prefixed and its token piece verifies, and `req.user` is the decoded id |
| AuthMiddleware.GateWithoutBearer | backend/middleware/authMiddleware.js:7-20 | no header, an empty one or one not starting with `Bearer` gives exactly one "tidak ada token" 401 and no `next` |
| AuthMiddleware.GateDoubleReply | backend/middleware/authMiddleware.js:9-20 | two writes happen iff the header is Bearer-prefixed and the token piece is undefined or empty, and they are "token gagal" then "tidak ada token"; never more than two |
| AuthMiddleware.TokenPartOfBearer | backend/middleware/authMiddleware.js:7-9 | `Bearer <t>` with a non-empty, space-free `t` passes the prefix test and hands exactly `t` to verification |
| AuthMiddleware.GateAcceptsValidBearer | backend/middleware/authMiddleware.js:9-12 | `Bearer <t>` with a verifying `t`: `next` once, `req.user` set to the decoded id, nothing written |
| AuthMiddleware.GateRefusesInvalidBearer | backend/middleware/authMiddleware.js:10-15 | `Bearer <t>` with a non-empty `t` that fails verification: exactly one "token gagal" 401, no `next` |
| AuthMiddleware.PrefixTestIsLiteral | backend/middleware/authMiddleware.js:7 | `Bearerxyz` takes the Bearer branch and gets both writes; `bearer xyz` gets only "tidak ada token" |
| AuthMiddleware.BearerAloneDoubleReply | backend/middleware/authMiddleware.js:9-20 | the header `Bearer` gets "token gagal" then "tidak ada token" |
| AuthMiddleware.DoubleSpaceDoubleReply | backend/middleware/authMiddleware.js:9-20 | the header `Bearer  x` (empty second piece) gets "token gagal" then "tidak ada token" |
| AuthMiddleware.IssuedTokenAcceptedUntilExpiry | backend/middleware/authMiddleware.js:9-15 | a token from login, sent as `Bearer <token>`, admits its user strictly before `exp` and is refused with a single 401 from then on |
| Server.SearchReply | backend/server.js:39-46 | status 200 iff OMDb answered, with its JSON relayed unchanged; a failed fetch or parse gives the generic 500 |
| Server.DetailsReply | backend/server.js:64-75 | status 200 iff OMDb answered with `Response === "True"`, relayed unchanged; any other answer gives 404 with OMDb's `Error` or "Film tidak ditemukan di OMDb."; failure gives 500; no other status |
| Server.SearchMovies | backend/server.js:33-47 | a missing or empty `s` gives 400 and no OMDb call; otherwise exactly one call with the encoded term and the API key, and the reply `SearchReply` maps |
| Server.MovieDetails | backend/server.js:49-76 | neither `t` nor `i` gives 400 and no call; `t` is used whenever present and `i` only without it, with exactly one call, and the reply `DetailsReply` maps |
| Server.Greeting | backend/server.js:78-80 | the protected route answers 200 with the fixed greeting followed by the user id |
| Server.GreetingNamesUser | backend/server.js:79 | the user id can be read back from the greeting, so different users get different messages |
| Server.ServeProtected | backend/server.js:78-80 | the reply trace is the gate's writes followed, when the gate called `next`, by the greeting for `req.user`; `next` calls and `req.user` are those the gate produced |
| HomePage.Axios | frontend/src/pages/HomePage.js:41 | a backend reply resolves the request iff its status is 2xx, and then with the reply's body |
| HomePage.DetailsFromBackend | frontend/src/pages/HomePage.js:36-55 | the movie is returned iff the request resolved with `Response === "True"`, and it is that body; otherwise null |
| HomePage.DetailsThroughBackend | frontend/src/pages/HomePage.js:41-51 | through the backend's details route, the front end gets a movie exactly when OMDb found it; a not-found answer reaches it only as a rejection |
| HomePage.DefaultResults | frontend/src/pages/HomePage.js:62-63 | one result per default id; a present result is a found movie and is exactly the body the backend returned for the id at that position; an absent one means that request was rejected or not found |
| HomePage.CollectDisplayable | frontend/src/pages/HomePage.js:65-70 | the loop pushes exactly the displayable results, in order |
| HomePage.KeptIsSubsequence | frontend/src/pages/HomePage.js:61-70 | the kept list is no longer than the results and sits at increasing positions of them |
| HomePage.KeptExactlyDisplayable | frontend/src/pages/HomePage.js:66 | a movie is kept iff it is a non-null result with a truthy `Poster` other than `'N/A'` |
| HomePage.Page.constructor | frontend/src/pages/HomePage.js:7-10 | the page starts with no movies and no error |
| HomePage.Page.LoadDefaultMovies | frontend/src/pages/HomePage.js:57-77 | movies become the displayable default results in id order, never more than there are ids, each one found and with a poster; the error is set exactly when none is left |
| HomePage.Page.HandleSearch | frontend/src/pages/HomePage.js:79-105 | a term that trims to `''` reloads the defaults and sends no search; otherwise one search for the trimmed term; `Response === "True"` shows `Search`; any other answer empties the list and sets `Error` or "Film tidak ditemukan."; a failed request empties the list and sets the generic backend error |

## Left out

- Hashing internals (salt generation with cost 10, the comparison itself): bcrypt is a library, so it is the abstract `Crypto.Hasher`.
- JWT signing and verification internals: jsonwebtoken is a library, so it is the abstract `Crypto.Jwt`. A token whose payload lacks `id` is not modelled; the verifier yields an id or nothing.
- The MySQL pool and queries: the table is a map, and ids come from a counter starting at 1 (auto-increment). Any database error is the single flag `storeFails`. Collation effects of `WHERE username = ?` (case or trailing-space insensitivity) depend on a schema that is not part of this model, so the lookup is exact.
- The check-then-insert race between concurrent registrations of one username: it needs concurrency.
- Non-string JSON values in request bodies and query strings (numbers, arrays): fields are absent or strings.
- `fetch`, URL encoding and the OMDb service are function parameters. The OMDb JSON keeps only the properties the logic reads.
- `/api/movies/test`: it only relays a fixed OMDb lookup and makes no decision.
- `Promise.all`, the `loading` flag toggled by parallel requests, and the asynchronous, un-awaited call to `loadDefaultMovies` in `handleSearch`: these are concurrency. The model runs the requests in id order and applies the state updates in sequence.
- React rendering, hooks, styles, `localStorage` and axios configuration (`App.js`, `LoginPage.js`, `MovieCard.js`, `MovieDetailsPopup.js`, `api.js`): UI and I/O.
- `dotenv` and `process.env`: the signing secret and the API key are immutable values handed in.
- Console logging.
- AuthMiddleware.Exchange.Protect: records the second 401 write as made. It does not model Express throwing on that write because headers were already sent.
- HomePage.Page.HandleSearch: when `Response === "True"` but `Search` is absent, the model shows an empty list, where the source sets `movies` to `undefined`.
