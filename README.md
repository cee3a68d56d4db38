# UserMetaData request-decision layer, in Dafny

This project models the request-decision layer of the UserMetaData service:
the five HTTP handlers (`GetHandler`, `PostHandler`, `SearchHandler`,
`CountHandler`, `DeleteHandler`) and the upload helper `insertData`. For every
request it states:

- which filter specification governs the request;
- whether the document store is touched at all;
- which store primitive is called, and with exactly which arguments;
- which HTTP status and result code the reply carries.

The document store, the query-language parser and the auth-token check are
uninterpreted collaborators:

- The store is the class `Store.DocStore`. Each of its methods returns an
  arbitrary answer and records the call and the answer in a ghost `log`.
  `Store.Writes` picks the mutating calls out of a log. This lets the
  handlers' contracts say "no store call", "exactly this call" and "nothing
  was written".
- The parser (`ql.ParseQuery`) is a function parameter. It returns either a
  spec, which may be nil (`None`), or an error.
- The auth check (`server.GetAuthTokenUser`) is an `Outcome` parameter.
- Request binding and body decoding (`c.Bind`, `parseRequest`,
  `parseQueryRequest`) come in as a `Result`: a decoded value or an error.

Documents and specs are `map<string, Value>`, where `Value` is a tagged JSON
value. A nil spec and an empty spec `{}` are different values
(`None` versus `Some(map[])`). The handlers test only for nil, so `{}` counts
as an explicit spec and is used as given.

Files:

- `wrappers.dfy`: the `Option`, `Result` and `Outcome` types.
- `documents.dfy`: values, documents, collections, configuration, `%v` rendering, and the `{"did": …}` filter.
- `store.dfy`: the store, its call log, and the write-history lemmas.
- `services.dfy`: result codes, their statuses, and the reply shapes.
- `helpers.dfy`: `insertData`.
- `handlers.dfy`: spec resolution and the five handlers.

Behaviour of the code worth noting:

- A `ParseError` is replied with status 500 (internal error). This holds for
  an undecodable body and for a malformed query.
- The handlers' result codes include no missing-identifier code. An upload
  without a `"did"` key fails with `InsertError` (status 500) and the message
  "provided metadata record does not contain did attribute". Only the key's
  presence is checked, so an empty string passes.
- An explicit spec is used whenever it is non-nil, including when it is an
  empty map.
- `SearchHandler` calls the store's `Count` before it retrieves records. The
  count is then discarded.
- `DeleteHandler` answers a failed auth check with status 400, code
  `RemoveError` and a plain JSON object, not a service envelope.
- `GetHandler`, `SearchHandler` and `CountHandler` reply on success with a
  bare record list or a bare number, not an envelope.

## Model

| member | source | states |
|---|---|---|
| `Documents.Sprint` | helpers.go:14 | `%v` prints a string value as the string itself, a boolean as true/false and a JSON null as `<nil>` |
| `Documents.DidSpec` | handlers.go:31 | the identifier filter has exactly one key, `did`, bound to the requested identifier as a string |
| `Services.StatusFor` | handlers.go:219-224 | a result code's status is 200 exactly when the code is OK; ParseError and InsertError are 500; BindError and RemoveError are 400 |
| `Services.Failed` | handlers.go:81-82 | a failure envelope carries the given code with a non-200 status that agrees with it, the error as its detail, and no results |
| `Helpers.DidOf` | helpers.go:12-18 | an identifier is produced exactly when the record has a `did` key, whatever its value; for a string value it is that string |
| `Helpers.InsertData` | helpers.go:10-27 | with no `did` key it returns "" and the missing-did error and makes no store call; otherwise it inserts the record unmodified into the MongoDB collection, returns the store's error unchanged, and returns the formatted did whatever the insert's outcome |
| `Handlers.ResolveSpec` | handlers.go:121-137 | a non-nil spec, even an empty one, is used verbatim and never fails; otherwise the result is the parser's, and resolution fails exactly when the spec is nil and parsing fails |
| `Handlers.ExplicitSpecIgnoresQuery` | handlers.go:121-126 | with an explicit spec, neither the query string nor the parser affects the resolved spec |
| `Handlers.Retrieval` | handlers.go:143-153 | the retrieval is sorted exactly when sort keys are present and then carries the keys and order; it always carries the resolved spec, the idx and the limit |
| `Handlers.Inserted` | handlers.go:94-100 | the upload's success reply is 200/OK with NRecords = 1 and one record holding only `{"did": did}` |
| `Handlers.GetHandler` | handlers.go:22-40 | a bind failure gives 400/BindError with no store call; otherwise exactly one `Get` on the metadata collection with `{"did": DID}`, idx 0 and limit -1, and its records are the reply; nothing is written |
| `Handlers.PostHandler` | handlers.go:77-101 | a body error gives 500/ParseError, a missing did or a store error gives 500/InsertError, and success gives the one-record OK envelope; the only write is the one insert of the record when it has a did |
| `Handlers.SearchHandler` | handlers.go:104-159 | a body or parse error gives 500/ParseError with no store call; a nil spec gives a nil list with no store call; otherwise a `Count` and then exactly one `Get` or `GetSorted` with the resolved spec, and the retrieved records are the reply; nothing is written |
| `Handlers.CountHandler` | handlers.go:162-203 | a body or parse error gives 500/ParseError with no store call; a nil spec gives 0 with no store call; otherwise exactly one `Count` with the resolved spec, and its answer is the reply, with idx and limit unused; nothing is written |
| `Handlers.DeleteHandler` | handlers.go:206-227 | a failed auth check gives 400/RemoveError with no store call; otherwise exactly one `Remove` with `{"did": did}`, even for an empty did; the reply is 200/OK when the store reports no error (matched or not) and 400/RemoveError with the error otherwise; the only write is that remove |
| `Store.ReadsKeepWrites` | handlers.go:139-154 | extending the store log with reads only (counts and retrievals) leaves the write history unchanged |

## Left out

- Transport: gin binding, body reading and JSON decoding (handlers.go:43-74) are modelled only as "succeeds with a value" or "fails with an error". JSON encoding of replies is not modelled.
- The query-language grammar (`ql.ParseQuery`) is a parameter. Its parsing is not modelled.
- Document-store semantics are not modelled: filter matching, pagination, sorting, uniqueness on insert, and whether the store returns a nil or an empty list. The store's answers are arbitrary. For the same reason no insert-then-read round trip is stated. Inserts also go to the MongoDB collection setting, while reads go to the UserMetaData one.
- Auth-token verification (`server.GetAuthTokenUser`) is a pass/fail parameter. The user and scopes it yields are not used by the handler.
- The route table, the scope requirements, DB initialisation, the user-type switch and server startup (server.go) are not modelled.
- Logging and the `Verbose` level are not modelled because they do not affect behaviour.
- Concurrency between requests is not modelled. Each handler runs alone against the store.
- Documents.Sprint: the `%v` rendering of numbers, arrays and objects is delegated to a `render` parameter. Go prints JSON numbers as float64, and that format is not modelled.
