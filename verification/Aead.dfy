/**
 An idealised authenticated cipher. A sealed value opens exactly under the key, the nonce and the
 additional data it was sealed with, which is what authenticated decryption promises
 (sections 7.1 and 7.2 of NIST SP 800-38D) once forgery is taken as impossible.
 */
module Aead {
  import opened Base

  type byte = x: int | 0 <= x < 256

  type Bytes = seq<byte>

  /** A ciphertext. Its fields are not readable by code; only `Open` looks inside. */
  datatype Sealed = Sealed(key: Bytes, nonce: Bytes, plain: Bytes, aad: Bytes)

  function Seal(key: Bytes, nonce: Bytes, plain: Bytes, aad: Bytes): Sealed {
    Sealed(key, nonce, plain, aad)
  }

  function Open(key: Bytes, nonce: Bytes, c: Sealed, aad: Bytes): Option<Bytes> {
    if c.key == key && c.nonce == nonce && c.aad == aad then Some(c.plain) else None
  }

  /** The encrypted part of a vault item: the payload under a data key, the data key under the vault key. */
  datatype Envelope = Envelope(payloadNonce: Bytes, payload: Sealed, wrapNonce: Bytes, wrapped: Sealed,
                               aadDigest: Digest)
}
