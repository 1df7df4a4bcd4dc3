/**
 * Authentication of an inbound webhook body (`validateSignature`): the
 * header `X-Hub-Signature-256` must carry the lower-case hex HMAC-SHA256 of
 * the raw body under the application secret, optionally behind a
 * `sha256=` prefix. HMAC-SHA256 itself is a foreign library and is passed in
 * as the function `mac`.
 */
module Signature {
  import Text
  import Hex
  import opened Wrappers
  import opened Bytes

  /** HMAC-SHA256 as an uninterpreted keyed function: key, message -> digest bytes. */
  type Mac = (string, seq<byte>) -> seq<byte>

  const PREFIX: string := "sha256="

  /** The header value a correct sender puts on `body`. */
  function ExpectedSignature(body: seq<byte>, appSecret: string, mac: Mac): string {
    Hex.Encode(mac(appSecret, body))
  }

  /**
   * `validateSignature`. An empty header fails; otherwise one leading
   * `sha256=` is dropped and the rest must equal the expected hex digest
   * character for character (so an upper-case digest does not match).
   */
  function ValidateSignature(body: seq<byte>, signature: string, appSecret: string, mac: Mac): (ok: bool)
    ensures signature == "" ==> !ok
    ensures ok ==> |Text.TrimPrefix(signature, PREFIX)| == 2 * |mac(appSecret, body)|
  {
    if signature == "" then false
    else Text.TrimPrefix(signature, PREFIX) == ExpectedSignature(body, appSecret, mac)
  }

  /** A correctly signed body, sent with the prefix, is accepted. */
  lemma PrefixedDigestAccepted(body: seq<byte>, appSecret: string, mac: Mac)
    ensures ValidateSignature(body, PREFIX + ExpectedSignature(body, appSecret, mac), appSecret, mac)
  {
    var sig := PREFIX + ExpectedSignature(body, appSecret, mac);
    assert PREFIX <= sig;
    assert sig[|PREFIX|..] == ExpectedSignature(body, appSecret, mac);
  }

  /**
   * Without the prefix the header is compared whole, and a non-empty bare
   * digest is accepted too: a hex digest never begins with `sha256=`.
   */
  lemma BareDigestAccepted(body: seq<byte>, appSecret: string, mac: Mac)
    requires mac(appSecret, body) != []
    ensures ValidateSignature(body, ExpectedSignature(body, appSecret, mac), appSecret, mac)
  {
    var sig := ExpectedSignature(body, appSecret, mac);
    assert Hex.IsLowerHexDigit(sig[0]);
    assert sig[0] != PREFIX[0];
  }

  /** Only ONE prefix is stripped: a doubled prefix leaves `sha256=` in front of the digest, which never matches. */
  lemma DoublePrefixRejected(body: seq<byte>, appSecret: string, mac: Mac)
    ensures !ValidateSignature(body, PREFIX + PREFIX + ExpectedSignature(body, appSecret, mac), appSecret, mac)
  {
    var expected := ExpectedSignature(body, appSecret, mac);
    var sig := PREFIX + PREFIX + expected;
    assert PREFIX <= sig;
    var rest := Text.TrimPrefix(sig, PREFIX);
    assert rest == PREFIX + expected;
    if |expected| > 0 {
      assert Hex.IsLowerHexDigit(expected[0]);
      assert rest[0] != expected[0];
    }
  }

  /** A header whose digest part holds any character that is not a lower-case hex digit (say 'A'..'F') is rejected. */
  lemma NonLowerHexRejected(body: seq<byte>, signature: string, appSecret: string, mac: Mac, k: nat)
    requires k < |Text.TrimPrefix(signature, PREFIX)|
    requires !Hex.IsLowerHexDigit(Text.TrimPrefix(signature, PREFIX)[k])
    ensures !ValidateSignature(body, signature, appSecret, mac)
  {
    var expected := ExpectedSignature(body, appSecret, mac);
    var rest := Text.TrimPrefix(signature, PREFIX);
    if |rest| == |expected| {
      assert Hex.IsLowerHexDigit(expected[k]);
      assert rest[k] != expected[k];
    }
  }

  /**
   * Comparing hex strings is comparing digests: a non-empty header is
   * accepted exactly when its digest part decodes (strictly, lower case only)
   * to the HMAC of the body.
   */
  lemma AcceptedIffDigestMatches(body: seq<byte>, signature: string, appSecret: string, mac: Mac)
    ensures ValidateSignature(body, signature, appSecret, mac) <==>
              signature != "" && Hex.Decode(Text.TrimPrefix(signature, PREFIX)) == Some(mac(appSecret, body))
  {
    var digest := mac(appSecret, body);
    var rest := Text.TrimPrefix(signature, PREFIX);
    Hex.DecodeEncode(digest);
    if Hex.Decode(rest) == Some(digest) {
      Hex.EncodeDecode(rest, digest);
    }
  }

  /**
   * A header accepted for one body is rejected for any body whose HMAC
   * differs: tampering with the body is detected whenever the MAC tells the
   * two bodies apart.
   */
  lemma TamperedBodyRejected(body: seq<byte>, tampered: seq<byte>, signature: string, appSecret: string, mac: Mac)
    requires mac(appSecret, body) != mac(appSecret, tampered)
    requires ValidateSignature(body, signature, appSecret, mac)
    ensures !ValidateSignature(tampered, signature, appSecret, mac)
  {
    if ValidateSignature(tampered, signature, appSecret, mac) {
      Hex.EncodeInjective(mac(appSecret, body), mac(appSecret, tampered));
    }
  }
}
