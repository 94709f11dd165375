/**
 * What one or two calls on a Go map store do, stated over the functions that
 * specify `Set`, `Get` and `Delete`: the documented argument checks, absence,
 * overwriting, idempotent deletion and the independence of distinct keys.
 */
module StoreLaws {
  import opened Util
  import opened GoMap

  /** `Set("", v)` fails and stores nothing. */
  lemma SetRejectsEmptyKey<V(!new)>(entries: Entries, f: MarshalFormat, u: Helpers<V>, v: Iface<V>)
    requires Documented(u)
    ensures SetEntry(entries, f, u, "", v).err.Some?
    ensures SetEntry(entries, f, u, "", v).entries == entries
  {
  }

  /** `Set(k, nil)` fails and stores nothing. */
  lemma SetRejectsNil<V(!new)>(entries: Entries, f: MarshalFormat, u: Helpers<V>, k: string)
    requires Documented(u)
    ensures SetEntry(entries, f, u, k, Nil).err.Some?
    ensures SetEntry(entries, f, u, k, Nil).entries == entries
  {
  }

  /** `Get("", p)` and `Get(k, nil)` report not found, with an error. */
  lemma GetRejectsEmptyKeyAndNil<V(!new)>(entries: Entries, f: MarshalFormat, u: Helpers<V>, k: string, p: Iface<V>)
    requires Documented(u)
    requires k == "" || p == Nil
    ensures !GetEntry(entries, f, u, k, p).found
    ensures GetEntry(entries, f, u, k, p).err.Some?
  {
  }

  /** `Delete("")` fails and removes nothing. */
  lemma DeleteRejectsEmptyKey<V(!new)>(entries: Entries, u: Helpers<V>)
    requires Documented(u)
    ensures DeleteEntry(entries, u, "").err.Some?
    ensures DeleteEntry(entries, u, "").entries == entries
  {
  }

  /** A second `Delete(k)` changes nothing and returns what the first returned. */
  lemma DeleteIdempotent<V>(entries: Entries, u: Helpers<V>, k: string)
    ensures var once := DeleteEntry(entries, u, k);
            DeleteEntry(once.entries, u, k) == once
  {
  }

  /** `Set(k, v1)` then a successful `Set(k, v2)` leaves what `Set(k, v2)` alone leaves. */
  lemma SetOverwrites<V>(entries: Entries, f: MarshalFormat, u: Helpers<V>, k: string, v1: Iface<V>, v2: Iface<V>)
    requires SetEntry(entries, f, u, k, v2).err.None?
    ensures SetEntry(SetEntry(entries, f, u, k, v1).entries, f, u, k, v2).entries
            == SetEntry(entries, f, u, k, v2).entries
  {
  }

  /**
   * After a successful `Set(k, v)`, a `Get(k, p)` whose arguments pass finds
   * the key, and the bytes `Set` marshalled go to the unmarshaller of the same
   * format.
   */
  lemma GetAfterSet<V>(entries: Entries, f: MarshalFormat, u: Helpers<V>, k: string, v: Iface<V>, p: Iface<V>)
    requires SetEntry(entries, f, u, k, v).err.None?
    requires u.checkKeyAndValue(k, p).None?
    ensures GetEntry(SetEntry(entries, f, u, k, v).entries, f, u, k, p)
            == Lookup(true, Unmarshal(u, f, Marshal(u, f, v).value, p))
  {
  }

  /** After a successful `Delete(k)`, a `Get(k, p)` whose arguments pass returns (false, nil). */
  lemma GetAfterDelete<V>(entries: Entries, f: MarshalFormat, u: Helpers<V>, k: string, p: Iface<V>)
    requires DeleteEntry(entries, u, k).err.None?
    requires u.checkKeyAndValue(k, p).None?
    ensures GetEntry(DeleteEntry(entries, u, k).entries, f, u, k, p) == Lookup(false, None)
  {
  }

  /** `Set` and `Delete` on one key do not change what `Get` returns for another. */
  lemma OtherKeysUnaffected<V>(entries: Entries, f: MarshalFormat, u: Helpers<V>, k: string, v: Iface<V>, k': string, p: Iface<V>)
    requires k != k'
    ensures GetEntry(SetEntry(entries, f, u, k, v).entries, f, u, k', p) == GetEntry(entries, f, u, k', p)
    ensures GetEntry(DeleteEntry(entries, u, k).entries, f, u, k', p) == GetEntry(entries, f, u, k', p)
  {
  }

  /** A new store finds nothing: every `Get` on it is (false, nil) or an argument error. */
  lemma NewStoreIsEmpty<V>(options: Options, u: Helpers<V>, k: string, p: Iface<V>)
    ensures !GetEntry(map[], options.marshalFormat, u, k, p).found
    ensures GetEntry(map[], options.marshalFormat, u, k, p).err == u.checkKeyAndValue(k, p)
  {
  }

  /**
   * Only the helpers of the store's own format are consulted: helper records
   * that agree on that format's marshaller and unmarshaller give the same
   * results for `Set` and for `Get`.
   */
  lemma FormatIsolation<V>(entries: Entries, f: MarshalFormat, u: Helpers<V>, u': Helpers<V>, k: string, v: Iface<V>)
    requires u.checkKeyAndValue == u'.checkKeyAndValue
    requires f == JSON ==> u.toJSON == u'.toJSON && u.fromJSON == u'.fromJSON
    requires f == Gob ==> u.toGob == u'.toGob && u.fromGob == u'.fromGob
    ensures SetEntry(entries, f, u, k, v) == SetEntry(entries, f, u', k, v)
    ensures GetEntry(entries, f, u, k, v) == GetEntry(entries, f, u', k, v)
  {
  }
}
