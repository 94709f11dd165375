/**
 * The gokv store backed by a Go map: a table from string keys to the
 * marshalled bytes of the stored values, with a marshal format fixed when the
 * store is created.
 *
 * The functions `SetEntry`, `GetEntry` and `DeleteEntry` say, on values, what
 * one call does to the table and what it returns; the methods of `Store`
 * perform the calls on the store's map field and are proved to agree with them.
 */
module GoMap {
  import opened Util

  /** Go's `type MarshalFormat int`, modelled with the range of a 64-bit `int`; two values are named. */
  newtype MarshalFormat = x: int | -0x8000_0000_0000_0000 <= x < 0x8000_0000_0000_0000

  /** (Un-)marshalling to and from JSON; the zero value of the type. */
  const JSON: MarshalFormat := 0
  /** (Un-)marshalling to and from gob. */
  const Gob: MarshalFormat := 1

  /** The error of the dispatch's default branch, in `Set` and in `Get`. */
  const NotImplemented :=
    Error("The store seems to be configured with a marshal format that's not implemented yet")

  /** The options of a Go map store. */
  datatype Options = Options(marshalFormat: MarshalFormat)

  /** The options with their default values: the zero value of `Options`. */
  function DefaultOptions(): (o: Options)
    ensures o.marshalFormat == JSON
  {
    Options(0)
  }

  /** The marshaller the format selects, or the not-implemented error. */
  function Marshal<V>(u: Helpers<V>, f: MarshalFormat, v: Iface<V>): (r: Result<Bytes>)
    ensures f == JSON ==> r == u.toJSON(v)
    ensures f == Gob ==> r == u.toGob(v)
    // the defensive default branch is an error, never a marshaller's result
    ensures f != JSON && f != Gob ==> r == Err(NotImplemented)
  {
    if f == JSON then u.toJSON(v)
    else if f == Gob then u.toGob(v)
    else Err(NotImplemented)
  }

  /** The unmarshaller the format selects, or the not-implemented error. */
  function Unmarshal<V>(u: Helpers<V>, f: MarshalFormat, data: Bytes, v: Iface<V>): (r: Option<Error>)
    ensures f == JSON ==> r == u.fromJSON(data, v)
    ensures f == Gob ==> r == u.fromGob(data, v)
    // the defensive default branch is an error, never an unmarshaller's result
    ensures f != JSON && f != Gob ==> r == Some(NotImplemented)
  {
    if f == JSON then u.fromJSON(data, v)
    else if f == Gob then u.fromGob(data, v)
    else Some(NotImplemented)
  }

  /** The contents of a store: key to marshalled value. */
  type Entries = map<string, Bytes>

  /** The table after a call that may change it, and the error the call returns. */
  datatype Outcome = Outcome(entries: Entries, err: Option<Error>)

  /** What `Get` returns. */
  datatype Lookup = Lookup(found: bool, err: Option<Error>)

  /** One `Set(k, v)` on a store with format `f` holding `entries`. */
  function SetEntry<V>(entries: Entries, f: MarshalFormat, u: Helpers<V>, k: string, v: Iface<V>): (r: Outcome)
    // a rejected argument is reported and nothing is marshalled or stored
    ensures u.checkKeyAndValue(k, v).Some? ==> r == Outcome(entries, u.checkKeyAndValue(k, v))
    // a format without a marshaller, and a failing marshaller, are reported and nothing is stored
    ensures u.checkKeyAndValue(k, v).None? && f != JSON && f != Gob ==> r == Outcome(entries, Some(NotImplemented))
    ensures u.checkKeyAndValue(k, v).None? && f == JSON && u.toJSON(v).Err? ==> r == Outcome(entries, Some(u.toJSON(v).error))
    ensures u.checkKeyAndValue(k, v).None? && f == Gob && u.toGob(v).Err? ==> r == Outcome(entries, Some(u.toGob(v).error))
    // success exactly when the arguments pass and the value marshals
    ensures r.err.None? <==> u.checkKeyAndValue(k, v).None? && Marshal(u, f, v).Ok?
    ensures r.err.Some? ==> r.entries == entries
    // a successful call inserts or overwrites k with the marshalled bytes ...
    ensures r.err.None? ==> r.entries.Keys == entries.Keys + {k} && r.entries[k] == Marshal(u, f, v).value
    // ... and every other key keeps its entry, or its absence
    ensures forall k' :: k' != k ==> (k' in r.entries <==> k' in entries)
    ensures forall k' :: k' != k && k' in entries ==> r.entries[k'] == entries[k']
  {
    match u.checkKeyAndValue(k, v)
    case Some(e) => Outcome(entries, Some(e))
    case None =>
      match Marshal(u, f, v)
      case Err(e) => Outcome(entries, Some(e))
      case Ok(data) => Outcome(entries[k := data], None)
  }

  /** One `Get(k, v)` on a store with format `f` holding `entries`. */
  function GetEntry<V>(entries: Entries, f: MarshalFormat, u: Helpers<V>, k: string, v: Iface<V>): (r: Lookup)
    // a rejected argument is reported, with found == false
    ensures u.checkKeyAndValue(k, v).Some? ==> r == Lookup(false, u.checkKeyAndValue(k, v))
    // found exactly when the arguments pass and the key is present
    ensures r.found <==> u.checkKeyAndValue(k, v).None? && k in entries
    // an absent key is (false, nil): absence is not an error
    ensures u.checkKeyAndValue(k, v).None? && k !in entries ==> r == Lookup(false, None)
    // a present key is found whatever the unmarshaller reports; the error is the
    // selected unmarshaller's, or not-implemented for an unknown format
    ensures r.found && f == JSON ==> r.err == u.fromJSON(entries[k], v)
    ensures r.found && f == Gob ==> r.err == u.fromGob(entries[k], v)
    ensures r.found && f != JSON && f != Gob ==> r.err == Some(NotImplemented)
  {
    match u.checkKeyAndValue(k, v)
    case Some(e) => Lookup(false, Some(e))
    case None =>
      if k !in entries then Lookup(false, None)
      else Lookup(true, Unmarshal(u, f, entries[k], v))
  }

  /** One `Delete(k)` on a store holding `entries`. */
  function DeleteEntry<V>(entries: Entries, u: Helpers<V>, k: string): (r: Outcome)
    // the only error is the key check's, and it leaves the table as it was
    ensures r.err == u.checkKey(k)
    ensures r.err.Some? ==> r.entries == entries
    // otherwise k is gone, whether or not it was there ...
    ensures r.err.None? ==> r.entries.Keys == entries.Keys - {k}
    // ... and every other key keeps its entry
    ensures forall k' :: k' != k && k' in entries ==> k' in r.entries && r.entries[k'] == entries[k']
  {
    match u.checkKey(k)
    case Some(e) => Outcome(entries, Some(e))
    case None => Outcome(entries - {k}, None)
  }

  /**
   * A Go map store. All copies of a Go `Store` value share its map, so the
   * store is a reference; `marshalFormat` is fixed when it is created.
   */
  class Store {
    var m: Entries
    const marshalFormat: MarshalFormat

    /** `NewStore(options)`: an empty store with the options' marshal format. */
    constructor NewStore(options: Options)
      ensures m == map[] && marshalFormat == options.marshalFormat
    {
      m := map[];
      marshalFormat := options.marshalFormat;
    }

    /** Stores the marshalled `v` under `k`. */
    method Set<V>(k: string, v: Iface<V>, u: Helpers<V>) returns (err: Option<Error>)
      modifies this`m
      ensures Outcome(m, err) == SetEntry(old(m), marshalFormat, u, k, v)
    {
      err := u.checkKeyAndValue(k, v);
      if err.Some? {
        return;
      }
      var encoded: Result<Bytes>;
      if marshalFormat == JSON {
        encoded := u.toJSON(v);
      } else if marshalFormat == Gob {
        encoded := u.toGob(v);
      } else {
        return Some(NotImplemented);
      }
      if encoded.Err? {
        return Some(encoded.error);
      }
      m := m[k := encoded.value];
      err := None;
    }

    /** Looks `k` up and unmarshals its bytes into the value `v` points to. */
    method Get<V>(k: string, v: Iface<V>, u: Helpers<V>) returns (found: bool, err: Option<Error>)
      ensures Lookup(found, err) == GetEntry(m, marshalFormat, u, k, v)
    {
      err := u.checkKeyAndValue(k, v);
      if err.Some? {
        return false, err;
      }
      if k !in m {
        return false, None;
      }
      var data := m[k];
      if marshalFormat == JSON {
        return true, u.fromJSON(data, v);
      } else if marshalFormat == Gob {
        return true, u.fromGob(data, v);
      } else {
        return true, Some(NotImplemented);
      }
    }

    /** Removes `k`; removing an absent key is not an error. */
    method Delete<V>(k: string, u: Helpers<V>) returns (err: Option<Error>)
      modifies this`m
      ensures Outcome(m, err) == DeleteEntry(old(m), u, k)
    {
      err := u.checkKey(k);
      if err.Some? {
        return;
      }
      m := m - {k};
    }
  }
}
