/**
 * verifyWebhookSignature of zatca-webhook/index.ts: a permissive fallback when either
 * the signature header or the secret is missing, otherwise an exact comparison with the
 * lower-case hexadecimal rendering of HMAC-SHA-256(secret, body).
 *
 * HMAC-SHA-256 over the UTF-8 bytes of its arguments is an uninterpreted parameter:
 * `mac(secret, body)` is None when the Web Crypto calls throw.
 */
module WebhookSignature {
  import opened Wrappers
  import opened JsValues
  import opened HexText

  /** The signature check: true when it is skipped or the signature matches. */
  function VerifyWebhookSignature(
    signature: Option<string>,
    secret: Option<string>,
    body: string,
    mac: (string, string) -> Option<seq<byte>>): (accepted: bool)
    ensures !StringTruthy(signature) || !StringTruthy(secret) ==> accepted
  {
    if !StringTruthy(signature) || !StringTruthy(secret) then true
    else
      var digest := mac(secret.value, body);
      if digest.None? then false
      else signature.value == HexEncode(digest.value)
  }

  /**
   * With both a signature and a secret, an accepted signature is exactly the MAC in text:
   * two lower-case hexadecimal digits per byte, reading back as the MAC.
   */
  lemma AcceptedSignatureIsMacText(
    signature: string, secret: string, body: string, mac: (string, string) -> Option<seq<byte>>)
    requires signature != "" && secret != ""
    ensures VerifyWebhookSignature(Some(signature), Some(secret), body, mac) <==>
      mac(secret, body).Some? && signature == HexEncode(mac(secret, body).value)
    ensures VerifyWebhookSignature(Some(signature), Some(secret), body, mac) ==>
      IsLowerHex(signature) && |signature| == 2 * |mac(secret, body).value| &&
      HexDecode(signature) == mac(secret, body).value
  {
    var digest := mac(secret, body);
    if digest.Some? {
      HexEncodeIsLowerHex(digest.value);
      HexDecodeOfHexEncode(digest.value);
    }
  }

  /** Upper-case digits, other characters or an odd length never pass the comparison. */
  lemma MalformedSignatureRejected(
    signature: string, secret: string, body: string, mac: (string, string) -> Option<seq<byte>>)
    requires signature != "" && secret != ""
    requires !IsLowerHex(signature) || |signature| % 2 == 1
    ensures !VerifyWebhookSignature(Some(signature), Some(secret), body, mac)
  {
    AcceptedSignatureIsMacText(signature, secret, body, mac);
  }

  /** A secret or a body the MAC cannot be computed for rejects a present signature. */
  lemma MacFailureRejects(
    signature: string, secret: string, body: string, mac: (string, string) -> Option<seq<byte>>)
    requires signature != "" && secret != "" && mac(secret, body).None?
    ensures !VerifyWebhookSignature(Some(signature), Some(secret), body, mac)
  {
  }

  /** What an `async` function hands back at once: a Promise of its eventual result. */
  datatype Promise<T> = Promise(settled: T)

  /** Every object is truthy in JavaScript, a Promise of false included. */
  predicate Truthy<T>(p: Promise<T>) {
    true
  }

  /** The call as the handler makes it, without `await`. */
  function VerifyWebhookSignatureAsync(
    signature: Option<string>,
    secret: Option<string>,
    body: string,
    mac: (string, string) -> Option<seq<byte>>): (p: Promise<bool>)
    ensures p.settled == VerifyWebhookSignature(signature, secret, body, mac)
  {
    Promise(VerifyWebhookSignature(signature, secret, body, mac))
  }

  /** The handler's test `!verifyWebhookSignature(...)`. */
  predicate SignatureGateRejects(pending: Promise<bool>) {
    !Truthy(pending)
  }

  /**
   * The gate never rejects, even when the comparison itself fails: the handler tests the
   * Promise, not the boolean it settles to.
   */
  lemma SignatureGateNeverRejects(
    signature: Option<string>, secret: Option<string>, body: string,
    mac: (string, string) -> Option<seq<byte>>)
    ensures !SignatureGateRejects(VerifyWebhookSignatureAsync(signature, secret, body, mac))
  {
  }
}
