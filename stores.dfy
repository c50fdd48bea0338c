/**
 * The values that cross the `store` interface of the weather cache: the
 * interface's two operations, the error values its implementations return,
 * and Go's "value or nil" as an Option.
 *
 * Go's `string` and `[]byte` are both modelled as Dafny `string`, one element
 * per byte: the core only stores, copies and compares them.
 */
module StoreApi {

  datatype Option<+T> = None | Some(value: T)

  /** Go `error` values the core tells apart. Go compares sentinel errors by
      identity, so the two "not found" sentinels are different values even
      though both print "not found". */
  datatype Error =
    | MemstoreNotFound      // memstore.ErrNotFound
    | FirestoreNotFound     // firestore.ErrNotFound
    | Failure(msg: string)  // any other error a backend returns
  {
    /** True of both "not found" sentinels. */
    predicate IsNotFound() {
      MemstoreNotFound? || FirestoreNotFound?
    }
  }

  /** One call made through the store interface, as a log entry. */
  datatype Call =
    | UpdateCall(data: string)   // UpdateWeather(ctx, data)
    | GetCall(zipCode: string)   // GetCurWeather(ctx, zipCode)
}
