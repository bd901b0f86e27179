/**
 * The md5 digest as the `md5` package returns it: 32 lower-case hex
 * digits. The digest algorithm itself (RFC 1321) is not part of this
 * model; clients receive the digest function as a parameter.
 */
module Md5 {

  const HexDigits: string := "0123456789abcdef"

  predicate IsHexDigest(s: string) {
    |s| == 32 && forall i :: 0 <= i < |s| ==> s[i] in HexDigits
  }

  type Digest = s: string | IsHexDigest(s) witness "00000000000000000000000000000000"
}
