/** Values shared by every part of the connector model: optional values, the
    Python exceptions the core raises, results that may carry one, and bytes. */
module Base {

  datatype Option<T> = None | Some(value: T)

  /** The exceptions the modelled code raises or passes on. `Exception` stands
      for any exception object a collaborator (the HTTP client, the socket)
      hands over, identified by its message. */
  datatype Exc =
    | IndexError
    | ValueError
    | KeyError(key: string)
    | AttributeError
    | Exception(message: string)

  /** A value, or the exception raised while computing it. */
  datatype Result<T> = Ok(value: T) | Err(exc: Exc)

  newtype byte = x: int | 0 <= x < 256

  type Bytes = seq<byte>

  /** `b"".join(chunks)`: the chunks concatenated in order. */
  function Concat(chunks: seq<Bytes>): Bytes
  {
    if chunks == [] then [] else chunks[0] + Concat(chunks[1..])
  }

  /** Appending one chunk appends its bytes to the concatenation. */
  lemma {:induction false} ConcatSnoc(chunks: seq<Bytes>, b: Bytes)
    ensures Concat(chunks + [b]) == Concat(chunks) + b
  {
    if chunks == [] {
      assert [b][1..] == [];
    } else {
      assert (chunks + [b])[1..] == chunks[1..] + [b];
      ConcatSnoc(chunks[1..], b);
    }
  }
}
