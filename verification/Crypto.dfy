/**
 The library primitives as one record of functions.  Nothing is known of them beyond `Lawful`;
 in particular no collision resistance is built in: the theorems that need it assume it of the
 values the logs at hand hash.
 */
module Crypto {
  import opened Basics
  import opened Json

  datatype Crypto = Crypto(
    // SHA-256 of the canonical form (section 3.2 of RFC 8785) of a value
    sha256: Json -> Bytes,
    // base58btc without multibase prefix
    base58: Bytes -> string,
    unbase58: string -> Option<Bytes>,
    // base64url without padding
    base64Url: Bytes -> string,
    // Ed25519: public key of a secret key, key decoding check, signing, verification
    edPublic: Bytes -> Bytes,
    edValid: Bytes -> bool,
    edSign: (Bytes, Bytes) -> Bytes,
    edVerify: (Bytes, Bytes, Bytes) -> bool
  )

  predicate IsBase58(c: char) {
    || '1' <= c <= '9'
    || ('A' <= c <= 'Z' && c != 'I' && c != 'O')
    || ('a' <= c <= 'z' && c != 'l')
  }

  predicate AllBase58(s: string) {
    forall c | c in s :: IsBase58(c)
  }

  predicate IsBase64Url(c: char) {
    'A' <= c <= 'Z' || 'a' <= c <= 'z' || '0' <= c <= '9' || c == '-' || c == '_'
  }

  ghost predicate Lawful(c: Crypto) {
    && (forall v :: |c.sha256(v)| == 32)
    && (forall b :: c.unbase58(c.base58(b)) == Some(b))
    && (forall b :: AllBase58(c.base58(b)))
    && (forall b :: b != [] ==> c.base58(b) != "")
    && (forall b :: forall ch | ch in c.base64Url(b) :: IsBase64Url(ch))
    && (forall sk :: |c.edPublic(sk)| == 32 && c.edValid(c.edPublic(sk)))
    && (forall sk, m :: |c.edSign(sk, m)| == 64)
    && (forall sk, m :: c.edVerify(c.edPublic(sk), m, c.edSign(sk, m)))
  }

  // Multihash header: SHA2-256, 32 bytes.
  const MULTIHASH_SHA256: Bytes := [0x12, 0x20]

  // Multicodec prefix of an Ed25519 public key.
  const MULTICODEC_ED25519: Bytes := [0xed, 0x01]

  /** `hash_log_entry`: base58btc(multihash(SHA-256(JCS(value)))). */
  function HashLogEntry(c: Crypto, value: Json): string {
    c.base58(MULTIHASH_SHA256 + c.sha256(value))
  }

  /** No two distinct values of `inputs` have the same SHA-256. */
  predicate CollisionFree(c: Crypto, inputs: set<Json>) {
    forall a, b | a in inputs && b in inputs && c.sha256(a) == c.sha256(b) :: a == b
  }

  lemma HashDeterminesInput(c: Crypto, inputs: set<Json>, a: Json, b: Json)
    requires Lawful(c) && CollisionFree(c, inputs) && a in inputs && b in inputs
    requires HashLogEntry(c, a) == HashLogEntry(c, b)
    ensures a == b
  {
    var x, y := MULTIHASH_SHA256 + c.sha256(a), MULTIHASH_SHA256 + c.sha256(b);
    assert Some(x) == c.unbase58(c.base58(x)) == c.unbase58(c.base58(y)) == Some(y);
    assert c.sha256(a) == x[2..] == y[2..] == c.sha256(b);
  }

  /** `ed25519_verifying_key_to_multikey`. */
  function Multikey(c: Crypto, public: Bytes): string {
    "z" + c.base58(MULTICODEC_ED25519 + public)
  }

  datatype MultibaseError = BadPrefix | BadBase58 | BadLength(got: nat) | NotEd25519

  /** `decode_multibase_z`. */
  function DecodeMultibase(c: Crypto, s: string): Result<Bytes, MultibaseError> {
    if s == "" || s[0] != 'z' then Err(BadPrefix)
    else
      match c.unbase58(s[1..])
      case None => Err(BadBase58)
      case Some(b) => Ok(b)
  }

  /** `decode_ed25519_multikey`. */
  function DecodeMultikey(c: Crypto, s: string): Result<Bytes, MultibaseError> {
    var bytes :- DecodeMultibase(c, s);
    if |bytes| != 34 then Err(BadLength(|bytes|))
    else if bytes[..2] != MULTICODEC_ED25519 then Err(NotEd25519)
    else Ok(bytes[2..])
  }

  lemma MultibaseRoundTrip(c: Crypto, b: Bytes)
    requires Lawful(c)
    ensures DecodeMultibase(c, "z" + c.base58(b)) == Ok(b)
  {
    assert ("z" + c.base58(b))[1..] == c.base58(b);
  }

  lemma MultikeyRoundTrip(c: Crypto, public: Bytes)
    requires Lawful(c) && |public| == 32
    ensures DecodeMultikey(c, Multikey(c, public)) == Ok(public)
  {
    MultibaseRoundTrip(c, MULTICODEC_ED25519 + public);
    assert (MULTICODEC_ED25519 + public)[..2] == MULTICODEC_ED25519;
    assert (MULTICODEC_ED25519 + public)[2..] == public;
  }

  /** Exactly the texts of `z` and the bytes ed 01 with a key of 32 bytes behind them are Ed25519 multikeys. */
  lemma MultikeyIsExact(c: Crypto, s: string, key: Bytes)
    ensures DecodeMultikey(c, s) == Ok(key) <==>
            |key| == 32 && s != "" && s[0] == 'z' && c.unbase58(s[1..]) == Some([0xed, 0x01] + key)
  {
    if DecodeMultikey(c, s).Ok? {
      var bytes := DecodeMultibase(c, s).value;
      assert bytes == bytes[..2] + bytes[2..];
    }
    if |key| == 32 && s != "" && s[0] == 'z' && c.unbase58(s[1..]) == Some([0xed, 0x01] + key) {
      assert ([0xed, 0x01] + key)[..2] == MULTICODEC_ED25519 && ([0xed, 0x01] + key)[2..] == key;
    }
  }

  /** The bytes behind an entry hash: the SHA2-256 multihash header 12 20, then the digest. */
  lemma EntryHashBytes(c: Crypto, value: Json)
    requires Lawful(c)
    ensures c.unbase58(HashLogEntry(c, value)) == Some([0x12, 0x20] + c.sha256(value))
  {
  }

  /** `eddsa_jcs_2022_hash`: hash of the proof options, then hash of the document. */
  function EddsaJcsHash(c: Crypto, document: Json, proofConfig: Json): Bytes {
    c.sha256(proofConfig) + c.sha256(document)
  }
}
