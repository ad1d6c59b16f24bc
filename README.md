# libre-questions, modelled in Dafny

libre-questions is a small web service that gives every visitor an identity
carried in an `id` cookie, lets the visitor set a display name, and keeps a
per-visitor counter. Names and totals live in one SQLite table keyed by a
text id, with a name and an integer total that starts at 0. All of
the service's logic is in `cmd/libre-questions/main.go`. This project models
that logic and proves what it guarantees.

- `Users` models the table as a map from id to a `Data{ID, Name, Total}` row.
  The three SQL statements the service issues are pure functions on that map:
  the name upsert (`Upserted`), the counter update (`Incremented`) and the rows
  a statement returns for an id (`RowsFor`). The class `Store` runs each
  statement as one atomic step. A step either fails and changes nothing, or
  applies in full and returns its result rows. `ScanRows` is the
  loop over the result rows that fills `data`: the last row wins, and no row
  leaves the zero record.
- `Hex` models Go's `encoding/hex` encoder: the Base16 encoding of section 8
  of RFC 4648 with the lower-case alphabet. The decoder is there as its
  inverse.
- `Session` models the session token, which is 32 random bytes in hex, and
  the rule for issuing cookies.
- `Routing` models path normalisation and the choice of handler.
- `Handlers` models `Server.NameHander` (here `NameHandler`),
  `Server.IncreaseCount` and the `/` handler (`Serve`). `Serve` resolves the
  identity, normalises the path and dispatches. Its contract gives, for each
  route, the effect on the table and the outcome.

What the model does not take from the environment it takes as parameters:
- The random bytes behind a new token.
- The set of parsed template names.
- Whether a store statement fails. This is a nondeterministic choice inside
  `Store`.

The root path `/` is normalised to `index.html`. A page view never creates a
row: it only reads, and it renders the zero record when the caller has no row.

## Model

| member | source | states |
|---|---|---|
| `Users.Upserted` | cmd/libre-questions/main.go:38-50 | The upsert keyed by id. A new id gets exactly `(id, name, 0)`. An existing row changes only its name and keeps its id and total. No other row changes. The key set gains only `id`. |
| `Users.Incremented` | cmd/libre-questions/main.go:71-80 | On an existing row, total goes up by exactly 1 and the name and id are kept. A missing id leaves the table unchanged and creates no row. No other row changes. |
| `Users.RowsFor` | cmd/libre-questions/main.go:206-214 | The rows the upsert, the update or the page read return for an id. There is at most one, because id is the primary key. There is one exactly when the id has a row, and it is that row. |
| `Users.WellFormedUpserted` | cmd/libre-questions/main.go:40-46 | The upsert keeps every row keyed by its own id and every total non-negative. |
| `Users.WellFormedIncremented` | cmd/libre-questions/main.go:73-77 | The increment keeps every row keyed by its own id and every total non-negative. |
| `Users.UpsertIdempotent` | cmd/libre-questions/main.go:40-46 | Setting the same name twice gives the same table as setting it once, so the total is not reset. |
| `Users.IncrementedTimesAdds` | cmd/libre-questions/main.go:73-77 | N increments of an existing row, one after another, add exactly N to its total. They change nothing else. |
| `Users.IncrementedTimesMissing` | cmd/libre-questions/main.go:73-77 | Any number of increments of a missing id leave the table unchanged. |
| `Users.IncrementsCommute` | cmd/libre-questions/main.go:71-80 | Two increments commute: they give the same table in either order. That N increments of one id add exactly N, with no update lost, is `IncrementedTimesAdds`. |
| `Users.UpsertIncrementCommute` | cmd/libre-questions/main.go:38-80 | On an existing row, a rename and an increment touch different columns and commute. |
| `Users.ScanRows` | cmd/libre-questions/main.go:58-65 | The scan loop yields the zero record when there are no rows, and otherwise the last row. |
| `Users.Store.constructor` | cmd/libre-questions/main.go:132-146 | A newly created table is empty and well formed. |
| `Users.Store.UpsertName` | cmd/libre-questions/main.go:38-55 | The upsert runs as one atomic statement. On failure the table is unchanged. On success the table is `Upserted` of the old one and the result is the row for `id`. |
| `Users.Store.IncrementTotal` | cmd/libre-questions/main.go:71-85 | The update runs as one atomic statement. On failure the table is unchanged. On success the table is `Incremented` of the old one and the result rows are those for `id`, which are none when the id has no row. |
| `Users.Store.SelectById` | cmd/libre-questions/main.go:206-219 | The read changes nothing. When it succeeds it returns the row for `id`, or no row. |
| `Hex.Encode` | cmd/libre-questions/main.go:108-109 | The encoding is twice as long as its input and uses only `0-9a-f`. |
| `Hex.EncodeAt` | cmd/libre-questions/main.go:108-109 | Byte i is encoded at characters 2i and 2i+1, high nibble first, from the table `0123456789abcdef`. |
| `Hex.EncodeAppend` | cmd/libre-questions/main.go:108-109 | The encoding goes byte by byte: the encoding of a concatenation is the concatenation of the encodings. |
| `Hex.DecodeEncode` | cmd/libre-questions/main.go:108-111 | Decoding the encoding gives back the input bytes: the round trip. |
| `Hex.EncodeInjective` | cmd/libre-questions/main.go:108-111 | Different byte strings have different encodings. |
| `Hex.EncodeInto` | cmd/libre-questions/main.go:108-109 | The in-place encoder fills the first 2n slots of the buffer with the encoding, returns 2n and leaves the rest of the buffer unchanged. |
| `Session.GenerateToken` | cmd/libre-questions/main.go:100-111 | The token is the hex encoding of the 32 random bytes. It is 64 characters long and all of them are lower-case hex. |
| `Session.NewCookie` | cmd/libre-questions/main.go:175-181 | The issued cookie is named `id`, carries the token, and is HttpOnly and SameSite=Strict. |
| `Session.Resolve` | cmd/libre-questions/main.go:173-185 | A cookie is set exactly when the request has no `id` cookie. An existing cookie's value is the identity. A new identity is a well-formed token that decodes back to the random bytes, and the cookie carries it. |
| `Session.FreshIdentitiesDiffer` | cmd/libre-questions/main.go:173-185 | Two new identities drawn from different random bytes differ. |
| `Routing.Normalize` | cmd/libre-questions/main.go:187-192 | `/` becomes `index.html`. Any other path starting with `/` loses exactly that one character. Any other path is kept as it is. The path must be non-empty. |
| `Routing.Dispatch` | cmd/libre-questions/main.go:194-204 | `name` goes to the name handler and `increase_count` to the counter handler. Any other normalised path goes to a page when it is a template name, and to the static file server otherwise. Each of these holds in both directions. |
| `Routing.LeadingSlashIrrelevant` | cmd/libre-questions/main.go:187-198 | A path routes the same with or without one leading slash. |
| `Routing.RootRoute` | cmd/libre-questions/main.go:187-204 | `/` renders `index.html` when that template exists, and is static content otherwise. |
| `Handlers.SetNameCreates` | cmd/libre-questions/main.go:40-46 | A successful name change for a new identity creates and renders `(id, name, 0)`. Nothing else changes. |
| `Handlers.SetNameKeepsTotal` | cmd/libre-questions/main.go:43-46 | A successful name change for a known identity renders the old row with only the name replaced. It adds no row. |
| `Handlers.SetNameRendersOwnRow` | cmd/libre-questions/main.go:38-67 | On a well-formed table, a successful name change renders the caller's own row, carrying the caller's id and the new name. |
| `Handlers.IncreaseCountRendersOwnRow` | cmd/libre-questions/main.go:71-97 | On a well-formed table, a successful increment renders either the zero record or the caller's own row. |
| `Handlers.IncreaseCountMissing` | cmd/libre-questions/main.go:73-97 | Counting for an identity that has no row creates nothing. It renders the zero record `("", "", 0)`, or fails with 500. |
| `Handlers.Server.constructor` | cmd/libre-questions/main.go:158-163 | The server holds the store and the template set. Every row has an id key, a non-negative total and a non-empty name. |
| `Handlers.Server.NameHandler` | cmd/libre-questions/main.go:30-68 | An empty name gives 400 and leaves the table unchanged. Otherwise the result is either 500 with the table unchanged, or the table upserted and `index.html` rendered with the resulting row. Every row keeps a non-empty name. |
| `Handlers.Server.IncreaseCount` | cmd/libre-questions/main.go:70-98 | The result is either 500 with the table unchanged, or the table incremented and `counter` rendered with the caller's new row or the zero record. |
| `Handlers.Server.Serve` | cmd/libre-questions/main.go:165-233 | Set-Cookie is sent exactly when the request has no `id` cookie, and the identity is resolved first. Then, according to `Dispatch`, the request gets the name handler's effect or the counter handler's effect. On a page it gets a read-only render of the row or the zero record. On the static route it reaches the file server with the original URL path and leaves the table untouched. |

## Left out

- HTTP plumbing is left out, because it belongs to the Go HTTP server: `http.HandleFunc`, `ListenAndServe`, and how the response writer and form values work. The model receives the URL path, the `id` cookie and the `name` form value, and returns an outcome.
- Go's `ServeMux` never hands a handler an empty path, so `Normalize`, `Dispatch` and `Serve` require a non-empty one.
- Template parsing and execution are left out, and so is the static file server, because both are library code. The model records only which template is executed, with which record, or that the file server is reached. Errors from template execution are ignored in the source and are not modelled.
- The random bytes are a parameter, because randomness cannot be modelled. The panic when the system's random source fails is left out.
- The cookie's expiry of seven days from issue is left out, because it is wall-clock time. The cookie's header text is left out too.
- Logging is left out: request timing, the `HX-Request` flag and `slog` output.
- Store setup is left out: opening the file, WAL mode, and exiting on a startup failure. `Store.constructor` stands for a newly created empty table.
- `Store`, `Incremented`: total is an unbounded integer, so the model does not cover 64-bit overflow of the SQLite integer.
- Concurrent requests are left out. Each SQL statement is one atomic step, and the database serialises them. `IncrementsCommute` covers every serial order, but interleaving inside a statement is not modelled.
- `Store.UpsertName`, `Store.IncrementTotal`, `Store.SelectById`: when a statement fails, the model does not say why. Errors while reading the result rows are ignored by the source and are not modelled either.
