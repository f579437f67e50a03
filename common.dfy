/** Option and Result, the two failure-carrying wrappers the rest of the model uses. */
module Wrappers {

  datatype Option<+T> = None | Some(value: T)

  datatype Result<+T, +E> = Ok(value: T) | Err(error: E)
}

/** The error type shared by every component (`DbErr`): only the kinds the core raises itself. */
module DbErrors {

  datatype DbErr =
    | Conn(message: string)     // the shared connection is unusable ("Disconnected", "Dropping a locked Transaction")
    | Exec(message: string)     // a write statement failed in the driver
    | Query(message: string)    // a read statement, BEGIN, COMMIT or ROLLBACK failed in the driver
    | Json(message: string)     // JSON did not have the shape an active model needs
    | Custom(message: string)   // raised by application code (hooks, row decoders)
}

/**
 * The primary-key value tuple: one, two or three values, or a vector of them,
 * the shape being chosen by the key's arity.
 */
module ValueTuples {

  datatype ValueTuple<V> = One(a: V) | Two(a: V, b: V) | Three(a: V, b: V, c: V) | Many(vs: seq<V>)

  /** The values in iteration order (what `into_value_tuple()` iterates over). */
  function Elements<V>(t: ValueTuple<V>): seq<V>
  {
    match t
    case One(a) => [a]
    case Two(a, b) => [a, b]
    case Three(a, b, c) => [a, b, c]
    case Many(vs) => vs
  }

  /** The tuple a key of `arity` values takes: `One`/`Two`/`Three` up to three, `Many` otherwise. */
  function Shaped<V>(arity: nat, vs: seq<V>): (t: ValueTuple<V>)
    requires |vs| == arity
    ensures Elements(t) == vs
    ensures arity == 1 <==> t.One?
    ensures arity == 2 <==> t.Two?
    ensures arity == 3 <==> t.Three?
    ensures t.Many? <==> (arity == 0 || arity > 3)
  {
    if arity == 1 then One(vs[0])
    else if arity == 2 then Two(vs[0], vs[1])
    else if arity == 3 then Three(vs[0], vs[1], vs[2])
    else Many(vs)
  }
}
