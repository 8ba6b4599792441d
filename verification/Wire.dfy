/** The library codecs behind the tokens that the trust and status registries serve. */
module Wire {
  import opened Basics
  import opened Json

  datatype Wire = Wire(
    // base64url without padding
    encode64: Bytes -> string,
    decode64: string -> Option<Bytes>,
    // zlib
    deflate: Bytes -> Bytes,
    inflate: Bytes -> Option<Bytes>,
    // JSON text held in bytes
    json: Bytes -> Option<Json>,
    // SHA-256 of ASCII text
    sha256: string -> Bytes
  )

  ghost predicate Lawful(w: Wire) {
    && (forall b :: w.decode64(w.encode64(b)) == Some(b))
    && (forall b :: w.inflate(w.deflate(b)) == Some(b))
  }

  datatype SegmentFault = NoBase64 | NoJson

  /** JSON in base64url, the form of a token segment and of a disclosure. */
  function DecodeJson(w: Wire, text: string): Result<Json, SegmentFault> {
    match w.decode64(text)
    case None => Err(NoBase64)
    case Some(bytes) =>
      match w.json(bytes)
      case None => Err(NoJson)
      case Some(v) => Ok(v)
  }
}
