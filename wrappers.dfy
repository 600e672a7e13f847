/** Failure-carrying values shared by every module of the model. */
module Wrappers {

  datatype Option<+T> = None | Some(value: T)

  /** The outcome of an operation the source may end with a thrown error:
      `Err` carries the error's message. */
  datatype Result<+T> = Ok(value: T) | Err(message: string)

  /** What an HTTP handler answers: a success status with its payload, or an error status
      with the message it reports. */
  datatype Reply<+T> = Success(status: int, value: T) | Failure(status: int, error: string)

  /** A byte of a Node.js `Buffer`. */
  type byte = b: int | 0 <= b < 256

  type bytes = seq<byte>

  /** A read from a string-keyed dictionary: a property of a parsed body, or
      `AsyncStorage.getItem`. `None` stands for `undefined` or the `null` of a missing key. */
  function Lookup<V>(m: map<string, V>, key: string): (v: Option<V>)
    ensures v.Some? <==> key in m
    ensures v.Some? ==> v.value == m[key]
  {
    if key in m then Some(m[key]) else None
  }
}
