/**
  Ideal primitives. Secrets, digests and keys are terms, so different inputs give different
  values. The AEAD of section 2.8 of RFC 8439 is a log of what was sealed: decryption finds
  a plaintext exactly when the same key, nonce, associated data and ciphertext were sealed.
 */
module Crypto {
  import opened Common

  datatype KemSecret = MlKem(encapsulationKey: seq<byte>, ciphertext: seq<byte>)

  /** `X25519` and `Spake2` depend on both public values, in either order. */
  datatype Secret =
    | X25519(ends: set<seq<byte>>)
    | Spake2(password: seq<byte>, ends: set<seq<byte>>)
    | Hybrid(kem: KemSecret, classical: Secret)

  datatype Digest = Sha256(preimage: seq<byte>)

  datatype Direction = ClientToHost | HostToClient

  datatype Key = Hkdf(ikm: Secret, salt: Digest, info: Direction)

  datatype Aad = Aad(binding: Digest, header: seq<byte>)

  datatype Sealing = Sealing(key: Key, nonce: seq<byte>, aad: Aad, plaintext: seq<byte>, ciphertext: seq<byte>)

  predicate Matches(s: Sealing, key: Key, nonce: seq<byte>, aad: Aad, ciphertext: seq<byte>) {
    s.key == key && s.nonce == nonce && s.aad == aad && s.ciphertext == ciphertext
  }

  function Decrypt(log: seq<Sealing>, key: Key, nonce: seq<byte>, aad: Aad, ciphertext: seq<byte>): (r: Option<seq<byte>>)
    ensures r.Some? ==> exists s | s in log :: Matches(s, key, nonce, aad, ciphertext) && s.plaintext == r.value
    ensures r.None? ==> forall s | s in log :: !Matches(s, key, nonce, aad, ciphertext)
  {
    if log == [] then None
    else if Matches(log[0], key, nonce, aad, ciphertext) then Some(log[0].plaintext)
    else Decrypt(log[1..], key, nonce, aad, ciphertext)
  }
}
