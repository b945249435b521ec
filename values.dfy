/** The values every engine carries, and the small wrappers the model uses for
    Python's "no more items" and exceptions. */
module Values {

  /** A Python value as the stream engines see it. `ChunkV` is a `Chunk`
      (a tuple subclass), `ListV` a plain list, which is what the legacy
      chunker yields. Scalars are integers; `NoneV` is Python's `None`. */
  datatype Value =
    | NoneV
    | Item(n: int)
    | ChunkV(elems: seq<Value>)
    | ListV(elems: seq<Value>)

  /** A user callable. Every Python callable given to the engines takes one
      argument; user callbacks are modelled as total functions. */
  type Fn = Value -> Value

  /** Python truthiness, which is how `if condition(item)` reads the value a
      condition returns. */
  predicate Truthy(v: Value)
  {
    match v
    case NoneV => false
    case Item(n) => n != 0
    case ChunkV(e) => e != []
    case ListV(e) => e != []
  }

  /** The values that a constructor receiving one argument unpacks, because
      they are iterable. */
  predicate IsIterable(v: Value)
  {
    v.ChunkV? || v.ListV?
  }

  /** The identity callable (`lambda x: x`). */
  function Identity(v: Value): Value
  {
    v
  }

  datatype Option<T> = None | Some(value: T)

  /** The Python exceptions the core can raise on its own (not those a user
      callback raises). `AttributeError` carries the missing operator;
      `TypeError` is a call with the wrong number of arguments. */
  datatype Error =
    | AttributeError(name: string)
    | IndexError
    | StopIteration
    | TypeError

  datatype Result<T> = Ok(value: T) | Err(error: Error)
}
