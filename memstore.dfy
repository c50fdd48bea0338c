/**
 * The in-memory implementation of the store interface (memstore/memstore.go):
 * a map from document key to serialized weather record. Operations are taken
 * as sequential and atomic; the RWMutex that makes them so is not modelled.
 */
module MemStore {
  import opened StoreApi

  /** The document key UpdateWeather always writes: the French Quarter zip code. */
  const DocId: string := "70117"

  /** What GetCurWeather answers for `key` on the map `data`: the stored value
      with no error, or the empty string with ErrNotFound. */
  function Lookup(data: map<string, string>, key: string): (string, Option<Error>)
  {
    if key in data then (data[key], None) else ("", Some(MemstoreNotFound))
  }

  class Store {
    var data: map<string, string>
    /** Every call made on the store through its exported methods, in order. */
    ghost var calls: seq<Call>

    /** The map is what the calls so far leave (see Replay); as `set` is only
        ever called with DocId, no other key is ever present. */
    ghost predicate Valid()
      reads this
    {
      data == Replay(calls) && data.Keys <= {DocId}
    }

    /** New: an empty store with no calls made. */
    constructor ()
      ensures data == map[] && calls == []
      ensures Valid()
    {
      data := map[];
      calls := [];
    }

    /** set, the package's private helper: whole-value replacement of one
        entry; every other entry is kept. It is not a call through the
        store's exported methods, so it is not logged. */
    method Set(key: string, value: string)
      modifies this`data
      ensures data == old(data)[key := value]
    {
      data := data[key := value];
    }

    /** get, the package's private helper: the value under `key` and whether
        it was present; Go's zero value "" when it was not. Changes nothing. */
    method Get(key: string) returns (value: string, ok: bool)
      ensures ok <==> key in data
      ensures ok ==> value == data[key]
      ensures !ok ==> value == ""
    {
      ok := key in data;
      value := if ok then data[key] else "";
    }

    /** GetCurWeather: the record for `zipCode`, or ("", ErrNotFound). The map
        is not changed. On a valid store every key other than DocId is not
        found, and DocId answers the data of the last UpdateWeather made. */
    method GetCurWeather(zipCode: string) returns (value: string, err: Option<Error>)
      modifies this`calls
      ensures data == old(data)
      ensures calls == old(calls) + [GetCall(zipCode)]
      ensures err == None <==> zipCode in data
      ensures err == None ==> value == data[zipCode]
      ensures err != None ==> value == "" && err == Some(MemstoreNotFound)
      ensures (value, err) == Lookup(data, zipCode)
      ensures old(Valid()) ==> Valid()
      ensures Valid() && zipCode != DocId ==> err == Some(MemstoreNotFound)
      ensures old(Valid()) ==>
                (value, err) == if zipCode == DocId && LastUpdate(old(calls)).Some?
                                then (LastUpdate(old(calls)).value, None)
                                else ("", Some(MemstoreNotFound))
    {
      ReplayLookup(calls, zipCode);
      calls := calls + [GetCall(zipCode)];
      assert calls[..|calls| - 1] == old(calls);
      var v, ok := Get(zipCode);
      if !ok {
        return "", Some(MemstoreNotFound);
      }
      return v, None;
    }

    /** UpdateWeather: always succeeds and replaces the record under DocId only. */
    method UpdateWeather(d: string) returns (err: Option<Error>)
      modifies this
      ensures err == None
      ensures data == old(data)[DocId := d]
      ensures calls == old(calls) + [UpdateCall(d)]
      ensures forall key :: key != DocId ==> Lookup(data, key) == Lookup(old(data), key)
      ensures old(Valid()) ==> Valid()
    {
      calls := calls + [UpdateCall(d)];
      assert calls[..|calls| - 1] == old(calls);
      Set(DocId, d);
      err := None;
    }
  }

  /** memstore_test.go's scenario: a fresh store answers ErrNotFound, and after
      UpdateWeather(d) it gives back exactly `d` for the French Quarter zip. */
  method RoundTripScenario(d: string, zipCode: string)
    returns (before: (string, Option<Error>), after: (string, Option<Error>), other: (string, Option<Error>))
    ensures before == ("", Some(MemstoreNotFound))
    ensures after == (d, None)
    ensures zipCode != DocId ==> other == ("", Some(MemstoreNotFound))
  {
    var s := new Store();
    var v, e := s.GetCurWeather(DocId);
    before := (v, e);
    e := s.UpdateWeather(d);
    v, e := s.GetCurWeather(DocId);
    after := (v, e);
    v, e := s.GetCurWeather(zipCode);
    other := (v, e);
  }

  // ---------------------------------------------------------------------
  // Properties of the store over whole histories of calls.

  /** The map a fresh store holds after the calls `calls`, in order. */
  function Replay(calls: seq<Call>): map<string, string>
  {
    if calls == [] then map[]
    else
      var before := Replay(calls[..|calls| - 1]);
      match calls[|calls| - 1]
      case UpdateCall(d) => before[DocId := d]
      case GetCall(_) => before
  }

  /** The data of the last UpdateWeather among `calls`, if any. */
  function LastUpdate(calls: seq<Call>): Option<string>
  {
    if calls == [] then None
    else
      match calls[|calls| - 1]
      case UpdateCall(d) => Some(d)
      case GetCall(_) => LastUpdate(calls[..|calls| - 1])
  }

  /** A fresh store is empty: every key is not found. */
  lemma NewStoreIsEmpty(key: string)
    ensures Lookup(map[], key) == ("", Some(MemstoreNotFound))
  {
  }

  /** Round trip: after UpdateWeather(d), GetCurWeather(DocId) gives exactly d. */
  lemma UpdateThenGet(data: map<string, string>, d: string)
    ensures Lookup(data[DocId := d], DocId) == (d, None)
  {
  }

  /** Last write wins: a second UpdateWeather replaces the first, never merges. */
  lemma LastWriteWins(data: map<string, string>, d1: string, d2: string)
    ensures data[DocId := d1][DocId := d2] == data[DocId := d2]
    ensures Lookup(data[DocId := d1][DocId := d2], DocId) == (d2, None)
  {
  }

  /** Whatever happened before, the store holds exactly the last update's data
      under DocId, and nothing at all if there was none. */
  lemma {:induction false} ReplayHoldsLastUpdate(calls: seq<Call>)
    ensures Replay(calls) == (match LastUpdate(calls)
                              case Some(d) => map[DocId := d]
                              case None => map[])
  {
    if calls != [] {
      ReplayHoldsLastUpdate(calls[..|calls| - 1]);
    }
  }

  /** So GetCurWeather after any history answers the last update for DocId and
      ErrNotFound for every other key and before the first update. */
  lemma ReplayLookup(calls: seq<Call>, key: string)
    ensures Lookup(Replay(calls), key) ==
              if key == DocId && LastUpdate(calls).Some? then (LastUpdate(calls).value, None)
              else ("", Some(MemstoreNotFound))
    ensures Replay(calls).Keys <= {DocId}
  {
    ReplayHoldsLastUpdate(calls);
  }
}
