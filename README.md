# In-memory record store behind `/api/strings`

This project models the `http_server` package of a small Go HTTP service in Dafny. The
service keeps string records in memory, each under a numeric key. A `Server` holds an
unsigned 32-bit counter `id` and a map `strs` from key to value. It has four operations:

- `add` decodes the request body, bumps the counter and stores the value under the new
  counter value.
- `update` replaces the value of a stored key. It fails with `item with id <key> not found`
  if the key is absent.
- `delete` removes a stored key. It fails with the same message if the key is absent.
- `get` lists every stored record, in the map's unspecified iteration order.

`Handle` sends GET, POST, PUT and DELETE to these operations. Any other method gets the
error `unsupported method`. An error is written instead of the result: as plain text with
status 500. A result is written as JSON. For GET, the records are listed a second time after
the switch, and that second listing is the one written.

Files:

- `fmt.dfy` (module `Fmt`): how `%d` writes a key in decimal, with the number read back.
- `records.dfy` (module `Records`): the values and the specification.
  - `uint32`, `ResultItem` and the store state `Store`.
  - The operations as functions of the state before them (`AddStep`, `UpdateStep`,
    `DeleteStep`), and `IsSnapshot` for what `get` returns.
  - The dispatcher as a relation `HandleStep` between the state before a request, the state
    after it and the reply.
  - The lemmas: what each operation promises, the invariant `KeysIssued` (every stored key
    lies between 1 and the counter), and, over a whole run of requests, keys that strictly
    increase and are never handed out twice.
- `server.dfy` (module `HttpServer`): the class `Server`.
  - It has the two fields. `Add`, `Update` and `Delete` update them in place. `Get` builds
    its list with a loop that picks entries in an arbitrary order. `Handle` assigns the
    local `result` and `err` as the Go code does.
  - Each method is proved against the specification.
  - A client (`Scenario`) runs a session of requests from an empty store to the expected
    replies.

The JSON decoder's outcome is an input: `Decoded` is either `Ok(item)` or `Err(message)`.
The reply is a datatype: `HttpError(message)`, or `Json(payload)`, where the payload is
`Items(records)`, `Item(record)` or `Text("OK")`.

## Model

| member | source | states |
|---|---|---|
| `Fmt.Decimal` | http_server/server.go:149 | `%d` writes a key as at least one decimal digit, with no leading zero except for 0 itself |
| `Fmt.ParseDecimalOfDecimal` | http_server/server.go:149 | reading the digits written for n gives back n |
| `Fmt.DecimalInjective` | http_server/server.go:167 | different keys are written as different digit strings |
| `Records.NotFoundNamesKey` | http_server/server.go:148-150 | two not-found messages are equal only if they are about the same key, so the message identifies the missing key |
| `Records.NextId` | http_server/server.go:128 | the counter's `Add(1)` is 32-bit unsigned: the new id is (id + 1) mod 2^32 |
| `Records.AddDecodeFailure` | http_server/server.go:122-126 | an `add` whose body fails to decode returns the decoder's error and leaves the counter and the map unchanged |
| `Records.AddAllocatesFreshKey` | http_server/server.go:128-136 | while the counter is below 2^32−1, a successful `add` raises the counter by exactly one and returns the request's value under the new counter value. That key was not stored before. The map gains exactly that entry and grows by one, every other entry is unchanged, and every key stays within 1..id |
| `Records.UpdateChangesOnlyThatValue` | http_server/server.go:139-155 | `update` of an absent key fails with `item with id <key> not found` and changes nothing. For a present key it returns the request item, sets that key's value and keeps the key set and every other entry. The counter never changes |
| `Records.DeleteRemovesExactlyOne` | http_server/server.go:157-173 | `delete` of an absent key fails with `item with id <key> not found` and changes nothing. For a present key it removes exactly that key: the size drops by one and every other entry is unchanged. The counter never changes |
| `Records.SnapshotCovers` | http_server/server.go:95-108 | a listing (one item per map entry, each carrying the map's value for its key, keys distinct) contains every stored record |
| `Records.SnapshotsAgree` | http_server/server.go:95-108 | two listings of the same map have the same length and the same records, and differ at most in order |
| `Records.UnsupportedMethodRefused` | http_server/server.go:61-63 | a method other than GET, POST, PUT and DELETE yields exactly the error `unsupported method` and no state change |
| `Records.DeleteErrorWinsOverOk` | http_server/server.go:70-82 | a DELETE answers `"OK"` if and only if the body decoded and its key was stored. Otherwise the decoder's error or the not-found error is written, and the state is unchanged |
| `Records.GetNeverFails` | http_server/server.go:64-77 | a GET never errors and never changes the state. Its reply is a JSON list that contains every stored record |
| `Records.HandleKeepsKeysIssued` | http_server/server.go:122-172 | every request keeps every stored key within 1..id and never lowers the counter, as long as a POST does not find the counter at its maximum. A successful POST answers with key id + 1, which was not stored before |
| `Records.RunKeepsKeysIssued` | http_server/server.go:128-170 | along any run of requests from a state where keys lie in 1..id, the invariant holds in every state and the counter never decreases, as long as no POST finds the counter at its maximum |
| `Records.IssuedKeysIncrease` | http_server/server.go:128-136 | along such a run, the keys returned by successful POSTs strictly increase. Each is absent from the store when it is handed out, so a deleted key is never handed out again |
| `HttpServer.Server.constructor` | http_server/server.go:33-43 | `New` makes an empty map and a counter at 0, which satisfies the key invariant |
| `HttpServer.Server.Add` | http_server/server.go:122-137 | the new counter, map and returned item are those of `AddStep`. Below the wrap, the invariant is kept and the returned key was not stored before |
| `HttpServer.Server.Update` | http_server/server.go:139-155 | the new map and the result are those of `UpdateStep`. The key set is unchanged and the invariant is kept |
| `HttpServer.Server.Delete` | http_server/server.go:157-173 | the new map and the result are those of `DeleteStep`. No key is added and the invariant is kept |
| `HttpServer.Server.Get` | http_server/server.go:95-108 | changes nothing and returns one item per map entry, each with the map's value for its key. Keys are distinct and the length equals the map size |
| `HttpServer.Server.Handle` | http_server/server.go:52-93 | the state change and the reply satisfy `HandleStep`: dispatch by method, the error written in place of any result, and for GET a fresh listing taken after the switch. The key invariant is kept unless a POST finds the counter at its maximum |
| `HttpServer.Scenario` | http_server/server.go:61-82 | from an empty store, the session runs as follows. Create "a" gives key 1 and create "b" gives key 2. A listing then holds both. Update 1 to "aa" returns the new record and delete 2 answers "OK". A listing then holds only {1, "aa"}. Deleting 2 again fails with `item with id 2 not found` |

## Left out

- `main.go` is not part of this model: process start-up, the `PORT` variable, the listener goroutine, the interrupt signal and graceful shutdown are operating-system and network plumbing.
- `New`'s `http.ServeMux` routing of `/api/strings` and `ServeHTTP`'s request log line are HTTP library glue. Every modelled request reaches `Handle`.
- `sync.RWMutex` and the atomic counter exist only for concurrent requests. Requests are modelled one at a time, and each operation is atomic. The window between taking an id and inserting into the map is therefore not modelled.
- `context.WithTimeout`: no store operation consults the deadline.
- JSON decoding (`decode`, `json.NewDecoder`): its outcome is the `body` parameter. A missing `key` field decodes to key 0, so it lands in the `Ok` case with key 0.
- JSON encoding (`json.Marshal`, the `omitempty` tags), the `Content-Type` header, `w.Write` and `http.Error`: a reply is the `Reply` value that would be serialised. The `json.Marshal` failure branch (server.go:86-90) is not modelled: these payloads are always encodable.
- HttpServer.Server.Add: key freshness and the key invariant are claimed only while the counter is below 2^32−1. At the maximum the counter wraps to 0, which is modelled by `NextId`. Later adds then reissue keys 0, 1, 2, …, and can overwrite stored records.
- HttpServer.Server.Handle: on a failed `add` or `update`, the Go code also sets `result` to an empty item. The model does the same, but the error is always written instead, so the value has no effect.
