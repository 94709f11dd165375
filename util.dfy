/**
 * The collaborators the Go map store calls into: the `util` package of gokv
 * (argument checks and the JSON / gob (un-)marshalling helpers) and Go's
 * `error` and `interface{}` values. The package's code is not part of this
 * model, so its functions are passed to the store as values. As Dafny
 * functions they are taken to be total and deterministic: they always return
 * and give the same result for the same arguments. Beyond that, the only thing
 * known about them is what the store's doc comments promise, stated by
 * `Documented`.
 */
module Util {

  /** A Go `[]byte`. */
  type Bytes = seq<bv8>

  datatype Option<T> = None | Some(value: T)

  /** A Go `error`; `Option<Error>` is an `error` that may be nil. */
  datatype Error = Error(message: string)

  /** The (data, err) pair returned by a marshaller. */
  datatype Result<T> = Ok(value: T) | Err(error: Error)

  /** A Go `interface{}` value: nil, or some dynamic value of the caller's type. */
  datatype Iface<V> = Nil | NonNil(value: V)

  /**
   * The functions of the `util` package that the store uses, for values
   * (and, in `Get`, output pointers) of type `V`.
   */
  datatype Helpers<!V> = Helpers(
    checkKey: string -> Option<Error>,
    checkKeyAndValue: (string, Iface<V>) -> Option<Error>,
    toJSON: Iface<V> -> Result<Bytes>,
    toGob: Iface<V> -> Result<Bytes>,
    fromJSON: (Bytes, Iface<V>) -> Option<Error>,
    fromGob: (Bytes, Iface<V>) -> Option<Error>)

  /**
   * What the store's doc comments promise about the checks: the key must not
   * be "" and the value (or, in `Get`, the pointer) must not be nil.
   */
  ghost predicate Documented<V(!new)>(u: Helpers<V>)
  {
    && u.checkKey("").Some?
    && (forall v :: u.checkKeyAndValue("", v).Some?)
    && (forall k :: u.checkKeyAndValue(k, Nil).Some?)
  }
}
