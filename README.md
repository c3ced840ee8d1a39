# Pagination and error responses of a question/answer web service

This project models two pure components of a small Rust CRUD service for questions, built on warp:

- the **pagination resolver** (`src/infrastructure/pagination.rs`). It reads the `start` and `end`
  query parameters into a `Pagination { start, end }` range. It rejects a missing key, a value
  that is not an unsigned integer, and a range that starts after it ends, in that order. It then
  clamps the range's `end` to the length of the listing.
- the **error taxonomy** (`src/domain/error.rs`). These are the four core errors and the messages
  they display. The responder `return_error` turns a warp rejection into a `(message, status)`
  reply: a core error first, then a CORS refusal, then a malformed body, and otherwise
  "Route not found".

Modules:

- `Wrappers`: `Option` and `Result`.
- `UsizeParse`: the slice of `str::parse::<usize>` the resolver relies on. One optional `+`
  is followed by at least one ASCII digit. The empty string is an `Empty` error and everything
  else is an `InvalidDigit` error. `Show` is `usize`'s decimal rendering and serves as the
  parser's inverse in both directions.
- `ErrorTaxonomy`: `Error`, `Message` (its `Display`), and warp's rejection as a sequence of
  causes. `Find` is `Rejection::find::<T>`: the first cause of kind `T`. `ReturnError` is the
  responder.
- `PaginationResolver`: `Pagination`, `NewPagination`, `ExtractPagination` and
  `LimitPagination`.

Modelling choices:

- The query map is a `map<string, string>`.
- The listing is a `seq<T>`, because only its length is used.
- A reply is a body and a status code.
- `CorsForbidden` and `BodyDeserializeError` carry the text they display. Warp formats that
  text, so here it is opaque.
- The parse error's message keeps the program's spelling "paramter".
- Clamping does not guard `start`. A valid range that starts past the end of the listing comes
  out with `start > end`. `LimitKeepsOrderIff` states exactly when this happens, and
  `LimitPastEnd` gives an instance. The slicing that would consume such a range lives in the
  handler module, which is not part of this model, so the model keeps the code's behaviour and
  proposes no correction.

## Model

| member | source | states |
|---|---|---|
| `PaginationResolver.NewPagination` | src/infrastructure/pagination.rs:13-19 | fails exactly when `start > end`; on success both fields are the arguments unchanged |
| `PaginationResolver.ExtractPagination` | src/infrastructure/pagination.rs:22-40 | a missing `start` or `end` key gives `MissingParameters` whatever the values; with both keys, an unparsable `start` gives `ParseError` with start's cause even if `end` is bad too; then an unparsable `end` gives `ParseError` with end's cause; two parsed values out of order give `InvalidParameters`; parsed values in order give exactly that range; every success is ordered and equals the parsed values; it never yields `QuestionNotFound` |
| `PaginationResolver.LimitPagination` | src/infrastructure/pagination.rs:42-51 | `start` is unchanged; `end` becomes `min(p.end, len)` for the listing length `len`, so it is within the listing and never grows |
| `PaginationResolver.LimitIdentity` | src/infrastructure/pagination.rs:43-50 | a range already ending inside the listing is returned unchanged |
| `PaginationResolver.LimitIdempotent` | src/infrastructure/pagination.rs:42-51 | clamping a clamped range changes nothing |
| `PaginationResolver.LimitKeepsOrderIff` | src/infrastructure/pagination.rs:43-47 | for an ordered range, the clamped range is ordered iff `start` is at most the listing length; nothing guards `start` |
| `PaginationResolver.LimitPastEnd` | src/infrastructure/pagination.rs:22-51 | `start=2&end=5` is accepted, then clamped over one element to `[2, 1)`, with `start > end` |
| `PaginationResolver.RejectedPaginationIs416` | src/domain/error.rs:27-38 | every error the resolver returns is answered with status 416 and the error's own message, also when other routes' non-core causes surround it in the combined rejection |
| `PaginationResolver.ExtractShown` | src/infrastructure/pagination.rs:22-36 | any ordered pair of decimal numbers, with or without a `+` on `start`, is accepted as exactly that range |
| `PaginationResolver.ExtractExamples` | src/infrastructure/pagination.rs:22-40 | `2,1` gives `InvalidParameters`; `x` with an empty `end` gives start's `InvalidDigit` error, not end's `Empty` one; a lone `start` gives `MissingParameters`; an empty `end` gives an `Empty` parse error |
| `UsizeParse.ParseUsize` | src/infrastructure/pagination.rs:24-33 | the parse fails with `Empty` exactly on the empty string; it succeeds exactly on one or more digits, optionally after a single `+` |
| `UsizeParse.DigitsValue` | src/infrastructure/pagination.rs:24-33 | the number a digit string denotes: a string of `k` digits is below 10^k, and at least 10^(k-1) without a leading zero |
| `UsizeParse.ShowParse` | src/infrastructure/pagination.rs:24-33 | rendering a parsed value gives the input without its `+` and its leading zeros |
| `UsizeParse.Show` | src/infrastructure/pagination.rs:24-33 | the decimal rendering is a non-empty digit string with no leading zero except for 0 |
| `UsizeParse.DigitsValueShow` | src/infrastructure/pagination.rs:24-33 | the value of the rendering of `n` is `n` |
| `UsizeParse.ParseShow` | src/infrastructure/pagination.rs:24-33 | parsing the rendering of `n` yields `n` |
| `UsizeParse.ParsePlusShow` | src/infrastructure/pagination.rs:24-33 | a leading `+` is accepted and does not change the value |
| `UsizeParse.ParseNegative` | src/infrastructure/pagination.rs:24-33 | a negative number is refused as an invalid digit |
| `UsizeParse.LeadingZero` | src/infrastructure/pagination.rs:24-33 | a leading zero does not change the value of a digit string |
| `UsizeParse.Describe` | src/domain/error.rs:19 | the text a parse cause displays after the prefix; only the `Empty` kind's text starts with "cannot parse integer", so the two kinds read differently |
| `ErrorTaxonomy.Message` | src/domain/error.rs:16-25 | the message starts with "Cannot parse paramter: " exactly for a parse error, and the rest is the cause's text; the other three messages are fixed texts |
| `ErrorTaxonomy.MessageInjective` | src/domain/error.rs:18-23 | distinct errors display distinct messages |
| `ErrorTaxonomy.Find` | src/domain/error.rs:27-44 | returns nothing exactly when the rejection has no cause of the kind; otherwise it returns a cause of that kind with none of that kind before it |
| `ErrorTaxonomy.FirstError` | src/domain/error.rs:27 | empty exactly when the rejection holds no core error; otherwise it is the first core error |
| `ErrorTaxonomy.ReturnError` | src/domain/error.rs:26-55 | always `Ok`, with status 404, 403, 416 or 422; with a core error present, the body is that error's message; 416 iff the first core error is not `QuestionNotFound`; 403 iff there is no core error and a CORS refusal exists; 422 iff there is neither but a body error exists; 404 iff the first core error is `QuestionNotFound` or none of the three kinds is present |
| `ErrorTaxonomy.QuestionNotFoundReply` | src/domain/error.rs:27-33 | a first core error of `QuestionNotFound` gives "Question not found" with status 404 |
| `ErrorTaxonomy.OtherErrorReply` | src/domain/error.rs:35-38 | any other first core error gives its message with status 416 |
| `ErrorTaxonomy.CoreErrorFirst` | src/domain/error.rs:27-48 | a core error after any other causes decides the reply on its own, and that reply is never 403 or 422 |
| `ErrorTaxonomy.CorsReply` | src/domain/error.rs:39-43 | with no core error, the first CORS refusal gives its own text with status 403 |
| `ErrorTaxonomy.BodyReply` | src/domain/error.rs:44-48 | with no core error and no CORS refusal, the first body error gives its text with status 422 |
| `ErrorTaxonomy.RouteNotFoundReply` | src/domain/error.rs:49-54 | with none of the three known causes, the reply is "Route not found" with status 404 |

## Left out

- `UsizeParse.ParseUsize`: does not model the width of `usize`. Values are unbounded `nat`s, so
  the `PosOverflow` error above 2^64 − 1 is never produced.
- The `ParseIntError` cause keeps only the two kinds an unbounded unsigned parse can report.
  The model writes out the standard library's text for each.
- Warp's rejection machinery: how `or`-combined filters merge their rejections, the `NotFound`
  reason, and the text warp renders for `CorsForbidden` and `BodyDeserializeError`. Only the
  order in which `return_error` looks for causes is modelled.
- `async` and the warp `Reply` type. The reply is a body and a status code.
- Route wiring, CORS settings and the listen address in `src/main.rs`: framework and I/O glue.
- The shared store in `src/infrastructure/store.rs`: a lock-guarded map loaded from a bundled
  JSON file. It has no operations of its own.
- `Question`, `QuestionId` and `Answer` are plain serialisable records with no behaviour.
- The request handlers and the store's insert, update and delete live in the `actions` module.
  That module is not part of this model.
