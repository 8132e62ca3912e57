/**
 * SHA-256 (FIPS 180-4) is not computed here. The model takes it as a
 * parameter of this type: a function from text to its hexadecimal digest,
 * of which nothing is known but the digest's shape, 64 lower-case
 * hexadecimal digits, as `hashlib.sha256(...).hexdigest()` returns; the
 * members that rely on that shape require `DigestShaped`.
 */
module Hashing {
  import opened Common

  predicate IsHexDigest(s: string) {
    |s| == 64 && IsLowerHex(s)
  }

  type Sha256Fn = string -> string

  /** What is known of SHA-256: every text gets a digest of that shape. */
  ghost predicate DigestShaped(sha: Sha256Fn) {
    forall text :: IsHexDigest(sha(text))
  }
}
