/** Types shared by every entry point of the raster boundary layer. */
module Common {

  /** An 8-bit unsigned value: a pixel sample, an encoded byte, a channel request. */
  newtype uint8 = x: int | 0 <= x < 256

  datatype Option<T> = None | Some(value: T)

  /** What an entry point hands back to the host: a value, or an IO user error with its message. */
  datatype Result<T> = Ok(value: T) | Err(msg: string)

  /** The bytes of a run of chunks laid end to end. */
  function Concat(chunks: seq<seq<uint8>>): seq<uint8>
  {
    if chunks == [] then [] else chunks[0] + Concat(chunks[1..])
  }

  /** Appending one more chunk appends its bytes. */
  lemma {:induction false} ConcatSnoc(chunks: seq<seq<uint8>>, chunk: seq<uint8>)
    ensures Concat(chunks + [chunk]) == Concat(chunks) + chunk
  {
    if chunks == [] {
      assert [chunk][1..] == [];
    } else {
      assert (chunks + [chunk])[1..] == chunks[1..] + [chunk];
      ConcatSnoc(chunks[1..], chunk);
    }
  }
}
