/** Values, errors and the calls that flow between a context store and its storage. */
module Protocol {

  /** A JSON-serialisable value held under one field of a context document.
      Floating-point numbers are not modelled; numbers are integers. */
  datatype Value =
    | Null
    | Bool(b: bool)
    | Number(n: int)
    | Text(s: string)
    | Array(items: seq<Value>)
    | Object(fields: map<string, Value>)

  /** A context document: field names to values, insertion order irrelevant. */
  type Document = map<string, Value>

  datatype Option<T> = None | Some(value: T)

  /** What can be raised to a caller: a store that cannot be reached, or a lock that
      could not be obtained within the retry budget (with the message the caller sees). */
  datatype Error =
    | StorageUnavailable
    | LockNotAcquired(message: string)

  datatype Result<T> = Ok(value: T) | Err(error: Error)

  /** The callback a context store registers for notifications: the `load_context`
      method of the instance identified by its owner token. */
  datatype Callback = LoadContextOf(owner: string)

  /** One call of the storage interface, with its arguments. */
  datatype Op =
    | Load(key: string)
    | Save(key: string, doc: Document)
    | Publish(channel: string)
    | Subscribe(channel: string, callback: Callback)
    | Acquire(key: string, token: string, ttl: int)
    | Release(key: string, token: string)
}
