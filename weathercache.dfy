/**
 * The request handling of the weather cache App (weathercache.go): ServeHTTP
 * dispatches on the HTTP method; POST refreshes the cached record (fetch,
 * read all, store); GET serves the cached record.
 *
 * The App's two collaborators are abstract. The `fetcher` is replaced by the
 * outcome of Fetch followed by io.ReadAll for the request at hand (a
 * parameter). The `store` is the class Store below: a record map plus the
 * "not found" sentinel its implementation returns and the errors its backend
 * raises, if any. The memory store (memstore.dfy) is the instance whose
 * sentinel is memstore.ErrNotFound and whose backend never fails.
 */
module WeatherCache {
  import opened StoreApi
  import MemStore

  /** The zip code the GET handler always asks the store for. */
  const QueryZip: string := "70117"

  /** The document key both store implementations write on UpdateWeather
      (memstore's DocId; firestore hard-codes the same zip code). */
  const StoreDocId: string := MemStore.DocId

  const MethodPost: string := "POST"
  const MethodGet: string := "GET"

  const TextPlain: string := "text/plain; charset=utf-8"
  const ApplicationJson: string := "application/json"

  /** What the fetcher and io.ReadAll give for one request. `decodes` says
      whether json.Unmarshal accepts `data` as a weather.Current; the JSON
      decoding itself is not modelled. */
  datatype Fetched =
    | Payload(data: string, decodes: bool)
    | FetchError  // Fetch returned an error
    | ReadError   // io.ReadAll returned an error

  /** Status, Content-Type header ("" when none is set) and body written to the client. */
  datatype Response = Response(status: int, contentType: string, body: string)

  /** A handler either writes a response or panics before writing one. */
  datatype Outcome = Responded(response: Response) | Panicked

  /** The handler ServeHTTP picks for an HTTP method. */
  datatype Route = UpdateRoute | GetRoute | NotAllowedRoute

  /** The state of a store implementation, as seen through the interface. */
  datatype Backend = Backend(
    records: map<string, string>,
    notFound: Error,           // the sentinel returned for a missing key
    writeFault: Option<Error>, // the error UpdateWeather's backend raises, if any
    readFault: Option<Error>)  // the error GetCurWeather's backend raises, if any
  {
    /** A missing key is reported with a "not found" sentinel, and a backend
        failure never is. */
    predicate Valid() {
      notFound.IsNotFound() && (readFault.Some? ==> !readFault.value.IsNotFound())
    }
  }

  /** An empty memory store seen through the interface. */
  const EmptyMemory: Backend := Backend(map[], MemstoreNotFound, None, None)

  /** http.Error: plain-text body of `text` and a newline, with status `code`. */
  function HttpError(text: string, code: int): Response
  {
    Response(code, TextPlain, text + "\n")
  }

  const NotFoundText: string := "Not Found"                   // http.StatusText(404)
  const InternalErrorText: string := "Internal Server Error"  // http.StatusText(500)
  const FetchFailedText: string := "could not fetch weather data"

  /** The 405 message, with the method quoted as `%q` does (escaping not modelled). */
  function NotAllowedText(httpMethod: string): string
  {
    "method \"" + httpMethod + "\" not allowed"
  }

  // ---------------------------------------------------------------------
  // The store interface and the handlers as functions of the store's state.

  /** UpdateWeather on a backend: whole-record replacement under StoreDocId,
      or the backend's error with nothing changed. */
  function Write(b: Backend, d: string): (Backend, Option<Error>)
  {
    if b.writeFault.Some? then (b, b.writeFault)
    else (b.(records := b.records[StoreDocId := d]), None)
  }

  /** GetCurWeather on a backend: the record, ("", sentinel) when it is
      missing, or ("", error) when the backend fails. */
  function Read(b: Backend, zipCode: string): (string, Option<Error>)
  {
    if b.readFault.Some? then ("", b.readFault)
    else if zipCode in b.records then (b.records[zipCode], None)
    else ("", Some(b.notFound))
  }

  /** ServeHTTP's switch on the method. */
  function RouteOf(httpMethod: string): Route
  {
    if httpMethod == MethodPost then UpdateRoute
    else if httpMethod == MethodGet then GetRoute
    else NotAllowedRoute
  }

  /** handleUpdateWeather: fetch, read all, store, then the debugging decode,
      leaving at the first failure. A handler that writes nothing gets
      net/http's default: status 200, no Content-Type, empty body. */
  function UpdateHandler(b: Backend, fetched: Fetched): (Backend, Outcome)
  {
    match fetched
    case FetchError => (b, Responded(HttpError(FetchFailedText, 500)))
    case ReadError => (b, Responded(HttpError(InternalErrorText, 500)))
    case Payload(data, decodes) =>
      var written := Write(b, data);
      if written.1.Some? then (written.0, Responded(HttpError(InternalErrorText, 500)))
      else if !decodes then (written.0, Panicked)
      else (written.0, Responded(Response(200, "", "")))
  }

  /** handleGetWeather, as intended: the record as JSON, 404 for either
      store's "not found" sentinel, 500 for any other error. */
  function GetResponse(value: string, err: Option<Error>): Response
  {
    if err.None? then Response(200, ApplicationJson, value)
    else if err.value.IsNotFound() then HttpError(NotFoundText, 404)
    else HttpError(InternalErrorText, 500)
  }

  /** handleGetWeather as written: only firestore.ErrNotFound is recognised
      (identity comparison), so memstore.ErrNotFound falls through to 500. */
  function GetResponseAsWritten(value: string, err: Option<Error>): Response
  {
    if err.None? then Response(200, ApplicationJson, value)
    else if err.value == FirestoreNotFound then HttpError(NotFoundText, 404)
    else HttpError(InternalErrorText, 500)
  }

  /** ServeHTTP on a backend: the new backend state and the outcome. */
  function Serve(b: Backend, httpMethod: string, fetched: Fetched): (Backend, Outcome)
  {
    match RouteOf(httpMethod)
    case UpdateRoute => UpdateHandler(b, fetched)
    case GetRoute =>
      var reply := Read(b, QueryZip);
      (b, Responded(GetResponse(reply.0, reply.1)))
    case NotAllowedRoute => (b, Responded(HttpError(NotAllowedText(httpMethod), 405)))
  }

  /** The calls ServeHTTP makes on the store. */
  function StoreCalls(httpMethod: string, fetched: Fetched): seq<Call>
  {
    match RouteOf(httpMethod)
    case UpdateRoute => if fetched.Payload? then [UpdateCall(fetched.data)] else []
    case GetRoute => [GetCall(QueryZip)]
    case NotAllowedRoute => []
  }

  // ---------------------------------------------------------------------
  // The collaborator and the App as objects.

  /** A value of the `store` interface. `calls` logs every call made on it. */
  class Store {
    var records: map<string, string>
    const notFound: Error
    const writeFault: Option<Error>
    const readFault: Option<Error>
    ghost var calls: seq<Call>

    function State(): Backend
      reads this
    {
      Backend(records, notFound, writeFault, readFault)
    }

    /** A store holding `records` whose implementation answers a missing key
        with `notFound` and whose backend raises the given errors. */
    constructor (records: map<string, string>, notFound: Error,
                 writeFault: Option<Error>, readFault: Option<Error>)
      requires Backend(records, notFound, writeFault, readFault).Valid()
      ensures State() == Backend(records, notFound, writeFault, readFault)
      ensures calls == []
    {
      this.records := records;
      this.notFound := notFound;
      this.writeFault := writeFault;
      this.readFault := readFault;
      calls := [];
    }

    method UpdateWeather(d: string) returns (err: Option<Error>)
      modifies this
      ensures (State(), err) == Write(old(State()), d)
      ensures calls == old(calls) + [UpdateCall(d)]
    {
      calls := calls + [UpdateCall(d)];
      if writeFault.Some? {
        return writeFault;
      }
      records := records[StoreDocId := d];
      err := None;
    }

    method GetCurWeather(zipCode: string) returns (value: string, err: Option<Error>)
      modifies this`calls
      ensures (value, err) == Read(State(), zipCode)
      ensures calls == old(calls) + [GetCall(zipCode)]
    {
      calls := calls + [GetCall(zipCode)];
      if readFault.Some? {
        return "", readFault;
      }
      if zipCode !in records {
        return "", Some(notFound);
      }
      return records[zipCode], None;
    }
  }

  class App {
    const store: Store

    constructor (store: Store)
      ensures this.store == store
    {
      this.store := store;
    }

    /** ServeHTTP: POST refreshes, GET reads, any other method gets 405
        without touching the store. */
    method ServeHTTP(httpMethod: string, fetched: Fetched) returns (out: Outcome)
      modifies store
      ensures (store.State(), out) == Serve(old(store.State()), httpMethod, fetched)
      ensures store.calls == old(store.calls) + StoreCalls(httpMethod, fetched)
    {
      match RouteOf(httpMethod) {
        case UpdateRoute =>
          out := HandleUpdateWeather(fetched);
        case GetRoute =>
          var response := HandleGetWeather();
          out := Responded(response);
        case NotAllowedRoute =>
          out := Responded(HttpError(NotAllowedText(httpMethod), 405));
      }
    }

    /** handleUpdateWeather. A failed fetch or read answers 500 without calling
        UpdateWeather; otherwise the bytes read are stored exactly as read, and
        only then is the payload decoded, so a payload that does not decode is
        already stored when the handler panics. */
    method HandleUpdateWeather(fetched: Fetched) returns (out: Outcome)
      modifies store
      ensures (store.State(), out) == UpdateHandler(old(store.State()), fetched)
      ensures store.calls == old(store.calls) + (if fetched.Payload? then [UpdateCall(fetched.data)] else [])
      ensures !fetched.Payload? ==>
                (store.records == old(store.records) && out.Responded? && out.response.status == 500)
      ensures fetched.Payload? && store.writeFault.None? ==>
                store.records == old(store.records)[StoreDocId := fetched.data]
      ensures out.Panicked? ==> store.records == old(store.records)[StoreDocId := fetched.data]
    {
      if fetched.FetchError? {
        return Responded(HttpError(FetchFailedText, 500));
      }
      if fetched.ReadError? {
        return Responded(HttpError(InternalErrorText, 500));
      }
      var err := store.UpdateWeather(fetched.data);
      if err.Some? {
        return Responded(HttpError(InternalErrorText, 500));
      }
      if !fetched.decodes {
        return Panicked;
      }
      out := Responded(Response(200, "", ""));
    }

    /** handleGetWeather: reads the French Quarter record and maps the store's
        answer to 200 with the JSON, 404 or 500. The records are not changed. */
    method HandleGetWeather() returns (response: Response)
      modifies store`calls
      ensures store.calls == old(store.calls) + [GetCall(QueryZip)]
      ensures response == GetResponse(Read(store.State(), QueryZip).0, Read(store.State(), QueryZip).1)
    {
      var value, err := store.GetCurWeather(QueryZip);
      if err.Some? {
        if err.value.IsNotFound() {
          return HttpError(NotFoundText, 404);
        }
        return HttpError(InternalErrorText, 500);
      }
      response := Response(200, ApplicationJson, value);
    }
  }

  /** The startup scenario of weathercache_test.go, with a POST standing in for
      PreFetch: on a fresh memory store a refresh that fetched `d` makes the
      next GET answer 200 with `application/json` and body exactly `d`. */
  method StartupScenario(d: string) returns (refresh: Outcome, read: Outcome)
    ensures refresh == Responded(Response(200, "", ""))
    ensures read == Responded(Response(200, ApplicationJson, d))
  {
    var store := new Store(map[], MemstoreNotFound, None, None);
    var app := new App(store);
    refresh := app.ServeHTTP(MethodPost, Payload(d, true));
    read := app.ServeHTTP(MethodGet, Payload(d, true));
  }

  // ---------------------------------------------------------------------
  // Properties of single requests.

  /** The memory store through the interface behaves exactly as memstore's
      GetCurWeather and UpdateWeather. */
  lemma MemoryIsMemStore(data: map<string, string>, key: string, d: string)
    ensures Read(Backend(data, MemstoreNotFound, None, None), key) == MemStore.Lookup(data, key)
    ensures Write(Backend(data, MemstoreNotFound, None, None), d)
              == (Backend(data[MemStore.DocId := d], MemstoreNotFound, None, None), None)
  {
  }

  /** Dispatch: any method other than POST and GET gets 405 and leaves the
      store untouched, neither written nor read. */
  lemma OtherMethodNotAllowed(b: Backend, httpMethod: string, fetched: Fetched)
    requires httpMethod != MethodPost && httpMethod != MethodGet
    ensures Serve(b, httpMethod, fetched) == (b, Responded(HttpError(NotAllowedText(httpMethod), 405)))
    ensures StoreCalls(httpMethod, fetched) == []
  {
  }

  /** GET never writes, reads exactly the French Quarter zip, and answers 200
      with the stored JSON, 404 for "not found" and 500 for any other error. */
  lemma GetCases(b: Backend, fetched: Fetched)
    requires b.Valid()
    ensures Serve(b, MethodGet, fetched).0 == b
    ensures StoreCalls(MethodGet, fetched) == [GetCall(QueryZip)]
    ensures var r := Serve(b, MethodGet, fetched).1.response;
            && (r.status == 200 <==> b.readFault.None? && QueryZip in b.records)
            && (r.status == 200 ==> r.contentType == ApplicationJson && r.body == b.records[QueryZip])
            && (r.status == 404 <==> b.readFault.None? && QueryZip !in b.records)
            && (r.status == 500 <==> b.readFault.Some?)
  {
  }

  /** POST whose fetch or read fails answers 500 and never calls UpdateWeather. */
  lemma RefreshFailureKeepsRecord(b: Backend, fetched: Fetched)
    requires !fetched.Payload?
    ensures Serve(b, MethodPost, fetched).0 == b
    ensures Serve(b, MethodPost, fetched).1.response.status == 500
    ensures StoreCalls(MethodPost, fetched) == []
  {
  }

  /** POST stores exactly the bytes read; it answers 500 when the store
      fails, panics when they do not decode (after storing them), and 200
      otherwise. */
  lemma RefreshStoresPayload(b: Backend, data: string, decodes: bool)
    ensures StoreCalls(MethodPost, Payload(data, decodes)) == [UpdateCall(data)]
    ensures b.writeFault.Some? ==>
              Serve(b, MethodPost, Payload(data, decodes)) == (b, Responded(HttpError(InternalErrorText, 500)))
    ensures b.writeFault.None? ==>
              Serve(b, MethodPost, Payload(data, decodes)).0 == b.(records := b.records[StoreDocId := data])
    ensures b.writeFault.None? ==>
              Serve(b, MethodPost, Payload(data, decodes)).1 ==
                (if decodes then Responded(Response(200, "", "")) else Panicked)
  {
  }

  /** Round trip: a successful refresh followed by a GET serves exactly the
      payload fetched. */
  lemma RefreshThenGet(b: Backend, data: string, decodes: bool)
    requires b.writeFault.None? && b.readFault.None?
    ensures var after := Serve(b, MethodPost, Payload(data, decodes)).0;
            Serve(after, MethodGet, Payload(data, decodes)).1 == Responded(Response(200, ApplicationJson, data))
  {
  }

  // ---------------------------------------------------------------------
  // Properties of whole request histories.

  datatype Request = Request(httpMethod: string, fetched: Fetched)

  /** The backend after serving `requests` in order. A panicking handler ends
      only its own request. */
  function Run(b: Backend, requests: seq<Request>): Backend
  {
    if requests == [] then b
    else
      var last := requests[|requests| - 1];
      Serve(Run(b, requests[..|requests| - 1]), last.httpMethod, last.fetched).0
  }

  /** The bytes read by the last POST whose fetch and read succeeded. */
  function LastPayload(requests: seq<Request>): Option<string>
  {
    if requests == [] then None
    else
      var last := requests[|requests| - 1];
      if last.httpMethod == MethodPost && last.fetched.Payload? then Some(last.fetched.data)
      else LastPayload(requests[..|requests| - 1])
  }

  /** Whatever requests arrive, the record under StoreDocId is the payload of
      the last refresh that got one, and nothing else in the store changes;
      failed fetches never clear or corrupt it. A backend whose writes fail
      is never changed. */
  lemma {:induction false} RunStoresLastPayload(b: Backend, requests: seq<Request>)
    ensures Run(b, requests) ==
              if b.writeFault.None? && LastPayload(requests).Some?
              then b.(records := b.records[StoreDocId := LastPayload(requests).value])
              else b
  {
    if requests != [] {
      RunStoresLastPayload(b, requests[..|requests| - 1]);
    }
  }

  /** Served from a memory store that starts empty, a GET answers 404 until a
      refresh has fetched a payload, and from then on 200 with the last
      payload fetched. */
  lemma MemoryGetAfterRun(requests: seq<Request>, fetched: Fetched)
    ensures Serve(Run(EmptyMemory, requests), MethodGet, fetched).1 ==
              Responded(if LastPayload(requests).Some?
                        then Response(200, ApplicationJson, LastPayload(requests).value)
                        else HttpError(NotFoundText, 404))
  {
    RunStoresLastPayload(EmptyMemory, requests);
  }

  /** As written, a GET on a memory store that has never been refreshed
      answers 500 Internal Server Error, where 404 is intended: the handler
      compares against firestore.ErrNotFound, and memstore returns its own
      sentinel. */
  lemma MemoryMissAnswers500AsWritten()
    ensures var reply := Read(EmptyMemory, QueryZip);
            && reply == ("", Some(MemstoreNotFound))
            && GetResponseAsWritten(reply.0, reply.1) == HttpError(InternalErrorText, 500)
            && GetResponse(reply.0, reply.1) == HttpError(NotFoundText, 404)
  {
  }

  /** The two handlers agree everywhere except on memstore's sentinel. */
  lemma AsWrittenDiffersOnlyOnMemstoreNotFound(value: string, err: Option<Error>)
    ensures GetResponseAsWritten(value, err) != GetResponse(value, err) <==> err == Some(MemstoreNotFound)
  {
  }
}
