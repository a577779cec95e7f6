/**
 * `KataQueryEncoder`, the codec `FramedWrite` uses to put queries on the
 * engine's standard input, and the part of `BytesMut` it touches.
 */
module Encoder {
  import opened Wrappers
  import opened Json
  import opened Query
  import opened Wire

  type Byte = bv8

  /** `std::io::Error`, the encoder's error type; `encode` never returns one. */
  datatype IoError = IoError(message: string)

  /** A growable byte buffer; its capacity is not modelled. */
  class BytesMut {
    var bytes: seq<Byte>

    constructor ()
      ensures bytes == []
    {
      bytes := [];
    }

    /** Appends a slice at the end, keeping what was there. */
    method ExtendFromSlice(extend: seq<Byte>)
      modifies this
      ensures bytes == old(bytes) + extend
    {
      bytes := bytes + extend;
    }
  }

  class KataQueryEncoder {
    constructor ()
    {
    }

    /**
     * Appends the query's serialisation and nothing else: no newline
     * follows it. `toVec` stands for `serde_json::to_vec`, which turns the
     * JSON value into its text; its `unwrap` never fails for a query.
     */
    method Encode(item: KataQuery, dst: BytesMut, toVec: Json -> seq<Byte>) returns (r: Outcome<IoError>)
      modifies dst
      ensures dst.bytes == old(dst.bytes) + toVec(ToJson(item))
      ensures r == Pass
    {
      var v := toVec(ToJson(item));
      dst.ExtendFromSlice(v);
      r := Pass;
    }
  }
}
