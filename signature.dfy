/**
 * The webhook signature check (`isValidSignature`, src/index.js:41-52).
 * HMAC-SHA256 and its hex digest are not modelled: the check is stated for an
 * arbitrary `hmacHex(secret, message)`.
 */
module Signature {
  import opened Js
  import opened Utf8

  /** The prefix of the `x-hub-signature-256` header value. */
  const Scheme := "sha256="

  /** The header value that a sender holding `secret` attaches to `rawBody`. */
  function ExpectedSignature(hmacHex: (string, string) -> string, secret: string, rawBody: string): (sig: string)
    ensures |sig| >= |Scheme| && sig[..|Scheme|] == Scheme
  {
    Scheme + hmacHex(secret, rawBody)
  }

  /**
   * The number of positions at which two equally long byte strings differ.
   * Like a constant-time comparison it looks at every byte pair, without
   * stopping at the first difference.
   */
  function Mismatches(a: seq<byte>, b: seq<byte>): (d: nat)
    requires |a| == |b|
    ensures d == 0 <==> a == b
    ensures d <= |a|
  {
    if a == [] then 0
    else
      assert a == [a[0]] + a[1..] && b == [b[0]] + b[1..];
      (if a[0] == b[0] then 0 else 1) + Mismatches(a[1..], b[1..])
  }

  /**
   * crypto.timingSafeEqual on two buffers. Node throws when the lengths
   * differ, so callers must compare the lengths first. How long it takes is
   * not modelled.
   */
  function TimingSafeEqual(a: seq<byte>, b: seq<byte>): (equal: bool)
    requires |a| == |b|
    ensures equal <==> a == b
  {
    Mismatches(a, b) == 0
  }

  /**
   * False for an absent or empty header; otherwise both strings are taken to
   * UTF-8, a length mismatch is rejected before the byte comparison, and the
   * bytes are compared.
   */
  function IsValidSignature(hmacHex: (string, string) -> string, secret: string, rawBody: string,
                            signature: Option<string>): (valid: bool)
    ensures valid <==> signature == Some(ExpectedSignature(hmacHex, secret, rawBody))
  {
    if signature.None? || signature.value == "" then false
    else
      var expected := ExpectedSignature(hmacHex, secret, rawBody);
      var digest := Encode(expected);
      var sigBuffer := Encode(signature.value);
      EncodeInjective(expected, signature.value);
      if |digest| != |sigBuffer| then false
      else TimingSafeEqual(digest, sigBuffer)
  }

  /** The header a sender computes with the shared secret is accepted. */
  lemma OwnSignatureAccepted(hmacHex: (string, string) -> string, secret: string, rawBody: string)
    ensures IsValidSignature(hmacHex, secret, rawBody, Some(ExpectedSignature(hmacHex, secret, rawBody)))
  {
  }

  /** An absent or empty header is rejected, whatever the body and the secret. */
  lemma MissingSignatureRejected(hmacHex: (string, string) -> string, secret: string, rawBody: string)
    ensures !IsValidSignature(hmacHex, secret, rawBody, None)
    ensures !IsValidSignature(hmacHex, secret, rawBody, Some(""))
  {
  }

  /**
   * A signature made for one body is rejected for another body whenever the
   * digest tells the two bodies apart.
   */
  lemma ForeignBodyRejected(hmacHex: (string, string) -> string, secret: string, rawBody: string, other: string)
    requires hmacHex(secret, rawBody) != hmacHex(secret, other)
    ensures !IsValidSignature(hmacHex, secret, other, Some(ExpectedSignature(hmacHex, secret, rawBody)))
  {
  }

  /**
   * A header whose UTF-8 length differs from that of the expected value is
   * rejected; this is the case that never reaches the byte comparison.
   */
  lemma LengthMismatchRejected(hmacHex: (string, string) -> string, secret: string, rawBody: string, signature: string)
    requires |Encode(signature)| != |Encode(ExpectedSignature(hmacHex, secret, rawBody))|
    ensures !IsValidSignature(hmacHex, secret, rawBody, Some(signature))
  {
  }
}
