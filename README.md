# weather-cache: the record store and the request handlers, in Dafny

The weather cache keeps one serialized weather record, for the French Quarter
zip code "70117", and serves it over HTTP. This project models two parts of it:

- **The in-memory record store** (`memstore`). It is a class holding a
  `map<string, string>` that `UpdateWeather` updates in place, always under the
  key "70117". `GetCurWeather` returns the stored value or the package's
  `ErrNotFound`. The file is memstore.dfy, module `MemStore`.
- **The request handling of `App`** (`weathercache.go`). `ServeHTTP` sends
  POST to the refresh handler, GET to the read handler, and answers 405 to
  anything else. The refresh handler runs fetch, then read-all, then store,
  and stops at the first failure. The read handler maps the store's answer to
  200, 404 or 500. The file is weathercache.dfy, module `WeatherCache`.

Both collaborators of `App` are abstract:
- The fetcher becomes a parameter, `Fetched`: the bytes read, or the fetch
  error, or the read error.
- The store interface is the class `WeatherCache.Store`. It holds a record
  map, the "not found" sentinel its implementation returns, and the write and
  read errors its backend raises, if any. A ghost log `calls` records every
  call made through the interface. `MemoryIsMemStore` proves that the memory
  instance behaves exactly as memstore's own operations.

Each handler is a method on `App`. Each method is proved against a pure
function of the store's state: `UpdateHandler`, `GetResponse` and `Serve`.
Lemmas state the properties of those functions over single requests and over
whole request histories (`Run`).

Modelling choices:
- Go's `string` and `[]byte` are both Dafny `string`. The core only stores,
  copies and compares them, so `string(data)` is the identity.
- Go compares sentinel errors by identity. So `memstore.ErrNotFound` and
  `firestore.ErrNotFound` are two distinct constructors of `StoreApi.Error`.
- A handler that writes nothing gets net/http's default response: status 200,
  no Content-Type and an empty body. A handler that panics is the outcome
  `Panicked`: no response is written.

Points where the code behaves differently from what its callers and tests
might suggest:
- The tests and `cmd/main.go` call `PreFetch`, `StartPoll` and `NewServer`.
  None of these is defined in the `weathercache.go` modelled here.
- A POST answers 500 on any failure and 200 otherwise, except that a payload
  that is not valid weather JSON makes the handler panic, after the payload
  has been stored.
- A GET answers 404 before the first refresh only for the Firestore store.
  For the memory store it answers 500 (see Findings). The App model uses the
  corrected mapping; the code as written is `GetResponseAsWritten`.

## Model

| member | source | states |
|---|---|---|
| `MemStore.Store.constructor` | memstore/memstore.go:17-21 | New gives an empty map with no calls made, which satisfies the invariant: the map is what the calls so far leave, and no key other than "70117" is present |
| `MemStore.Store.Set` | memstore/memstore.go:23-27 | the private helper: the entry for `key` is replaced whole by `value`; every other entry is kept |
| `MemStore.Store.Get` | memstore/memstore.go:29-34 | the private helper: `ok` holds exactly when the key is present; the value is the stored one, or "" when absent; the map is not changed |
| `MemStore.Store.GetCurWeather` | memstore/memstore.go:36-42 | no error exactly when the key is present, with the stored value; otherwise ("", ErrNotFound); the map is not changed; on a valid store every key other than "70117" answers ErrNotFound, and "70117" answers the data of the last UpdateWeather in the store's history |
| `MemStore.Store.UpdateWeather` | memstore/memstore.go:44-49 | always returns nil; the map becomes the old map with "70117" set to the data; every other key answers as before; the call is logged and the invariant is kept |
| `MemStore.RoundTripScenario` | memstore/memstore_test.go:44-53 | a fresh store answers ("", ErrNotFound); after UpdateWeather(d), GetCurWeather("70117") answers (d, nil); any other zip code still answers ErrNotFound |
| `MemStore.NewStoreIsEmpty` | memstore/memstore.go:36-40 | on the empty map, every key answers ("", ErrNotFound) |
| `MemStore.UpdateThenGet` | memstore/memstore.go:44-48 | round trip: reading "70117" after writing d gives (d, nil) |
| `MemStore.LastWriteWins` | memstore/memstore.go:23-27 | two updates leave exactly the second value, with no merge |
| `MemStore.ReplayHoldsLastUpdate` | memstore/memstore.go:23-48 | after any sequence of calls from New, the map is exactly {"70117": last update's data}, or empty if there was no update |
| `MemStore.ReplayLookup` | memstore/memstore.go:36-48 | after any history, GetCurWeather gives the last update's data for "70117" and ErrNotFound for every other key and before the first update; the domain stays within {"70117"} |
| `WeatherCache.Store.constructor` | weathercache.go:29-32 | a store value with the given records, sentinel and backend errors, and an empty call log |
| `WeatherCache.Store.UpdateWeather` | weathercache.go:30 | whole-record replacement under "70117", or the backend's error with the records unchanged; the call is logged |
| `WeatherCache.Store.GetCurWeather` | weathercache.go:31 | the record, ("", sentinel) for a missing key, or ("", error) on a backend failure; the records are unchanged; the call is logged |
| `WeatherCache.App.constructor` | weathercache.go:18-23 | an App over the given store |
| `WeatherCache.App.ServeHTTP` | weathercache.go:60-71 | the new store state and the outcome are those of `Serve` (POST refreshes, GET reads, other methods get 405); the store sees exactly the calls `StoreCalls` lists |
| `WeatherCache.App.HandleUpdateWeather` | weathercache.go:73-115 | a failed fetch or read answers 500 and leaves the store untouched with no call; otherwise UpdateWeather is called once with exactly the bytes read; a failed write answers 500; an undecodable payload panics after it has been stored; otherwise 200 |
| `WeatherCache.App.HandleGetWeather` | weathercache.go:117-139 | one GetCurWeather("70117") call and no write; the response is the corrected mapping `GetResponse` of the store's answer |
| `WeatherCache.StartupScenario` | weathercache_test.go:32-54 | on a fresh memory store, a successful refresh of d answers 200, and the next GET answers 200 with `application/json` and body exactly d |
| `WeatherCache.MemoryIsMemStore` | memstore/memstore.go:36-48 | the memory instance of the store interface reads and writes exactly as memstore's GetCurWeather and UpdateWeather |
| `WeatherCache.OtherMethodNotAllowed` | weathercache.go:61-70 | a method other than POST and GET gets 405 with the method named in the body; the store is neither read nor written |
| `WeatherCache.GetCases` | weathercache.go:117-134 | with the corrected not-found mapping: GET never writes and queries only "70117"; 200 exactly when the record is present and readable, with `application/json` and the stored body; 404 exactly when it is missing; 500 exactly when the backend fails |
| `WeatherCache.RefreshFailureKeepsRecord` | weathercache.go:75-90 | a POST whose fetch or read fails answers 500, changes nothing and never calls UpdateWeather |
| `WeatherCache.RefreshStoresPayload` | weathercache.go:92-113 | a POST with bytes read calls UpdateWeather with exactly those bytes; a failing store answers 500 and keeps its records; otherwise the record becomes the bytes, and the outcome is 200 if they decode and a panic if they do not |
| `WeatherCache.RefreshThenGet` | weathercache.go:85-134 | round trip: after a successful refresh, GET answers 200 with exactly the payload fetched |
| `WeatherCache.RunStoresLastPayload` | weathercache.go:60-115 | after any sequence of requests, the only change to the store is that "70117" holds the payload of the last refresh that read one; failed fetches never clear or corrupt it; a store whose writes fail never changes |
| `WeatherCache.MemoryGetAfterRun` | weathercache.go:117-134 | on a memory store that starts empty, a GET after any history answers 404 before the first payload and 200 with the last payload after it |
| `WeatherCache.MemoryMissAnswers500AsWritten` | weathercache.go:121-128 | as written, GET on a never-refreshed memory store answers 500 "Internal Server Error"; the corrected mapping answers 404 |
| `WeatherCache.AsWrittenDiffersOnlyOnMemstoreNotFound` | weathercache.go:121-128 | the as-written and corrected GET mappings differ exactly on memstore's ErrNotFound |

## Findings

| source | as written | input that shows it | evidently intended | confidence | as-written member | corrected member |
|---|---|---|---|---|---|---|
| weathercache.go:122 | the GET handler treats only `firestore.ErrNotFound`, compared by identity, as "not found"; `memstore.ErrNotFound` (memstore/memstore.go:10, 39) is a different value, so it falls through to the 500 branch | an App over `memstore.New()` that has never been refreshed receives GET: the store answers ("", memstore.ErrNotFound) and the response is 500 "Internal Server Error" | 404 "Not Found" for either store's not-found sentinel: the handler's own 404 branch exists for exactly this case, and the memory store is the store the tests and `cmd/main.go` use | high; not executed | `WeatherCache.MemoryMissAnswers500AsWritten` (over `GetResponseAsWritten`) | `WeatherCache.MemoryGetAfterRun` (over `GetResponse`, which `App.HandleGetWeather` and `Serve` use) |

## Left out

- WeatherCache.App.HandleGetWeather: uses the corrected not-found mapping `GetResponse`, which answers 404 for either store's sentinel. The code as written is `GetResponseAsWritten`, which answers 500 for `memstore.ErrNotFound` (see Findings).
- WeatherCache.App.ServeHTTP: its GET branch goes through `HandleGetWeather`, so it too answers 404 where the code as written answers 500 for `memstore.ErrNotFound`.
- WeatherCache.GetCases: states the corrected mapping; for `memstore.ErrNotFound` the code as written answers 500, not 404, as `MemoryMissAnswers500AsWritten` and `AsWrittenDiffersOnlyOnMemstoreNotFound` show.

- The poll lifecycle (`PreFetch`, `StartPoll`, `StopPoll`, `NewServer`, `WithStore`, `WithWeatherClient`): the tests and `cmd/main.go` call these, but the modelled `weathercache.go` does not define them, and their substance is timers and goroutines. `StartupScenario` uses a POST where the test uses `PreFetch`.
- `sync.RWMutex` in memstore: concurrency. Operations are taken as sequential and atomic.
- `init()` and `New()`: registration with the Functions Framework, Firestore client creation and the `log.Fatalf` exit.
- The upstream client (`weather.Fetch`), the Firestore SDK and its credential handling: these are outbound I/O. Their results enter the model as `Fetched` and as the store's backend errors.
- JSON decoding and the debug `Printf`: `Fetched.Payload.decodes` stands for whether `json.Unmarshal` succeeds.
- Logging (`a.log.Printf`), the `context.Context` arguments, closing the fetched reader, and the logged-only error from writing the GET body.
- The `X-Content-Type-Options: nosniff` header that `http.Error` also sets.
- `WeatherCache.NotAllowedText`: puts the method between double quotes, but does not apply the escaping that Go's `%q` applies to special characters.
- `WeatherCache.Store.constructor`: a backend's write and read errors are fixed for the store's lifetime. A real backend may fail on one call and not the next, and the model does not capture that.
- Firestore's wrapping of write errors (`firestore set: %w`): the handler only tests for a nil error, so the error's text plays no part.
- Panics: after a handler panics, later requests are still served. net/http recovers from a handler's panic and closes only that connection.
