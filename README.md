# gokv Go map store, modelled in Dafny

gokv defines one `Store` interface with many backends. This project models its
in-memory backend, `gomap.Store`. The store is a Go map from string keys to
the marshalled bytes of the values stored under them. Its marshal format
(JSON or gob) is fixed when `NewStore` builds it. It has three operations:

- `Set` checks its arguments, marshals the value, then inserts or overwrites the key.
- `Get` checks its arguments, looks the key up, then unmarshals the bytes it found.
- `Delete` checks the key and removes it. Removing an absent key is not an error.

Files:

- `util.dfy`, module `Util`: the store's collaborators. It defines Go's
  `error` and `interface{}` values, and `Helpers`, a record of the six
  functions of gokv's `util` package that the store calls: `CheckKey`,
  `CheckKeyAndValue`, `ToJSON`, `ToGob`, `FromJSON` and `FromGob`. The package's
  code is not part of this model, so every operation takes these functions as a
  parameter. The predicate `Documented` states the only promise the store's doc
  comments make about them: an empty key, a nil value and a nil pointer are
  rejected.
- `gomap.dfy`, module `GoMap`: `MarshalFormat`, `Options`, `DefaultOptions`,
  and the class `Store` with its field `m` and the constant `marshalFormat`.
  `Marshal` and `Unmarshal` are the format dispatch of `Set` and `Get`,
  including the default branch. `NewStore` is the class's constructor; `Set`, `Get` and `Delete` are its
  methods. Each method is proved equal to a function on values:
  `SetEntry`, `GetEntry` or `DeleteEntry`. Those functions state in their
  contracts the frame, error and absence behaviour of one call.
- `laws.dfy`, module `StoreLaws`: what two calls in a row do. This covers the
  documented argument checks, reading after a write or a delete, overwriting,
  idempotent deletion and the independence of distinct keys.
- `history.dfy`, module `History`: any sequence of `Set` and `Delete` calls.
  A key holds what the last successful call on it left. A key is present
  exactly when some successful `Set` stored it and no successful `Delete`
  followed. Calls on different keys can be reordered without changing the
  final table. `OnKey` (the calls on one key) and its lemmas `OnKeyCount` and
  `OnKeyAppend` are proof helpers for that last fact.

`MarshalFormat` is a named Go `int` type (gomap/map.go:89) with `JSON = 0` and
`Gob = 1`, so other values can be stored in it. Such values reach the default
branch at gomap/map.go:32-33 and 71-72, which returns the not-implemented error
with the message the code uses. Go's `int` is 32 or 64 bits wide depending on
the platform; the model uses the range of a 64-bit `int`. Every value other than
0 and 1 behaves the same way.

## Model

| member | source | states |
|---|---|---|
| `GoMap.DefaultOptions` | gomap/map.go:105-110 | the default options select JSON, because JSON is the zero value of `MarshalFormat` (gomap/map.go:91-96) |
| `GoMap.Store.NewStore` | gomap/map.go:112-119 | a new store has an empty map and the marshal format of the options |
| `GoMap.Marshal` | gomap/map.go:27-34 | the store's format selects the marshaller: JSON uses `ToJSON`, gob uses `ToGob`, and any other value takes the defensive default branch and gives the not-implemented error instead of a result; `SetEntry`'s ensures state the same dispatch for `Set` |
| `GoMap.Unmarshal` | gomap/map.go:66-73 | the store's format selects the unmarshaller: JSON uses `FromJSON`, gob uses `FromGob`, and any other value takes the defensive default branch and gives the not-implemented error; `GetEntry`'s ensures state the same dispatch for `Get` |
| `StoreLaws.FormatIsolation` | gomap/map.go:27-73 | only the store's own format's helpers matter: helper records that agree on the checks and on that format's marshaller and unmarshaller give the same `Set` and `Get` results, so a store never consults the other format's helpers |
| `GoMap.SetEntry` | gomap/map.go:20-42 | a rejected argument, an unknown format and a failing marshaller each return their error and leave the table unchanged; success happens exactly when the arguments pass and the value marshals; on success the key is inserted or overwritten with the marshalled bytes; every other key keeps its entry or its absence |
| `GoMap.Store.Set` | gomap/map.go:17-43 | after the call, the store's map and the returned error are those `SetEntry` gives for the old map |
| `GoMap.GetEntry` | gomap/map.go:51-74 | a rejected argument gives (false, that error); found holds exactly when the arguments pass and the key is present; an absent key gives (false, nil); a present key is found whatever the unmarshaller reports; the error is that of the store's format's unmarshaller, or not-implemented for an unknown format |
| `GoMap.Store.Get` | gomap/map.go:45-74 | returns what `GetEntry` gives for the store's map; the method cannot modify the store |
| `GoMap.DeleteEntry` | gomap/map.go:79-86 | the only error is the key check's, and it leaves the table unchanged; otherwise the key is absent afterwards, whether or not it was present; every other key keeps its entry |
| `GoMap.Store.Delete` | gomap/map.go:76-86 | after the call, the store's map and the returned error are those `DeleteEntry` gives for the old map |
| `StoreLaws.SetRejectsEmptyKey` | gomap/map.go:19-23 | if the checks keep their documented promise, `Set("", v)` returns an error and stores nothing |
| `StoreLaws.SetRejectsNil` | gomap/map.go:19-23 | if the checks keep their documented promise, `Set(k, nil)` returns an error and stores nothing |
| `StoreLaws.GetRejectsEmptyKeyAndNil` | gomap/map.go:50-54 | if the checks keep their documented promise, `Get` with an empty key or a nil pointer returns not found and an error |
| `StoreLaws.DeleteRejectsEmptyKey` | gomap/map.go:78-82 | if the checks keep their documented promise, `Delete("")` returns an error and removes nothing |
| `StoreLaws.DeleteIdempotent` | gomap/map.go:77-85 | a second `Delete(k)` leaves the table as the first left it and returns the same error |
| `StoreLaws.SetOverwrites` | gomap/map.go:39-42 | a successful `Set(k, v2)` after `Set(k, v1)` leaves the same table as `Set(k, v2)` alone |
| `StoreLaws.GetAfterSet` | gomap/map.go:41-73 | after a successful `Set(k, v)`, a valid `Get(k, p)` finds the key; the bytes that `Set` marshalled go to the unmarshaller of the same format |
| `StoreLaws.GetAfterDelete` | gomap/map.go:57-64 | after a successful `Delete(k)`, a valid `Get(k, p)` returns (false, nil) |
| `StoreLaws.OtherKeysUnaffected` | gomap/map.go:41-84 | `Set` and `Delete` on one key do not change what `Get` returns for another key |
| `StoreLaws.NewStoreIsEmpty` | gomap/map.go:112-119 | `Get` on a new store never finds a key; its only possible error is the argument check's |
| `History.Perform` | gomap/map.go:20-85 | a `Set` or `Delete` succeeds independently of the table; it changes at most its own key, and only when it succeeds |
| `History.LastWrite` | gomap/map.go:41-84 | the index it returns is that of a successful call on the key, and no later call on the key succeeds; with no index, no call on the key succeeds |
| `History.ReplayKeepsLastWrite` | gomap/map.go:41-84 | after any sequence of calls, each key holds what the last successful call on it left: the marshalled bytes of a `Set`, nothing after a `Delete`, or its initial entry if no call on it succeeded |
| `History.PresentIffSetAndNotDeleted` | gomap/map.go:41-84 | starting from a new store, a key is present exactly when a successful `Set` stored it and no successful `Delete` of it followed |
| `History.ReplayOnKey` | gomap/map.go:39-84 | what a key holds at the end depends only on the calls on that key |
| `History.Interleavings` | gomap/map.go:39-84 | two orders of the same per-key calls leave the same table; for callers on disjoint keys this covers the orders in which their calls take effect one at a time, which a `Delete` overlapping another call does not (see the unlocked `Delete` under Left out) |
| `History.DisjointCallsCommute` | gomap/map.go:39-84 | two runs of calls whose keys are disjoint leave the same table in either order: two callers on different keys whose calls take effect one at a time (the unlocked `Delete` at gomap/map.go:84 must not overlap another call; see Left out) |
| `History.EmptyKeyNeverStored` | gomap/map.go:19-23 | if the checks keep their documented promise, the empty key is never present in a store |

## Left out

- The `sync.RWMutex` in `Set` and `Get` (gomap/map.go:39-40, 56-61) is concurrency control. The model's calls are atomic. `History` describes the orders in which locked calls can take effect.
- `Delete` removes the key without taking the lock (gomap/map.go:84). That race against concurrent `Set` and `Get` cannot be expressed in a sequential model. `Delete` is modelled as an atomic removal.
- The code of gokv's `util` package is not part of this model. Its six functions are parameters. Apart from the doc comments' promise about empty keys and nil arguments, which is assumed only in the lemmas that name `Documented`, the model assumes one thing about them: as Dafny functions they are total and deterministic. Each always returns, never panics, and gives the same bytes or error for the same arguments.
- The marshallers need not be deterministic in Go. gob, for one, encodes map values in Go's randomized iteration order, so two marshals of the same value can give different bytes. Three lemmas compare the tables of two separate runs byte for byte and so rest on the determinism assumption above; each is listed next.
- StoreLaws.SetOverwrites: the equality of the two tables assumes `Set(k, v2)` marshals `v2` to the same bytes in both runs.
- History.Interleavings: the equality of the two tables assumes each `Set` marshals its value to the same bytes in both orders.
- History.DisjointCallsCommute: rests on `History.Interleavings`, and so on the same assumption.
- Panics: a marshaller that panics propagates out of `Set` before the write at gomap/map.go:41. The map then stays unchanged, but the model has no outcome for a panic.
- The model passes on whatever error a `util` check returns and does not name an error kind.
- The marshaller's round trip is not modelled. The model does not claim that `Get` returns a value equal to the one `Set` stored; that depends on `util` code that is not part of this model. `StoreLaws.GetAfterSet` states only that the stored bytes reach the matching unmarshaller.
- `GoMap.Store.Get` does not model how the unmarshaller fills in the value behind the pointer. `FromJSON`/`FromGob` are modelled by the error they return.
- `errors.New` makes a fresh error value on every call. The model's not-implemented error is one value carrying the code's message.
- Error identity beyond the message is not modelled.
- Go also allows the zero value `gomap.Store{}`, built without `NewStore`. `Set` and `Get` on it panic on the nil lock (gomap/map.go:39, 56), while `Delete` on its nil map returns nil (gomap/map.go:84). In the model a `Store` can only be made by `NewStore`, so that zero value is not modelled.
- `DefaultOptions` is a package variable (gomap/map.go:107), so other code could reassign it. The model treats it as the constant it starts as: `GoMap.DefaultOptions` is a function.
