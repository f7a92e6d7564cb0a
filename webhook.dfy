/** The two request-level decisions of the webhook: the GET subscription handshake and the
    `x-hub-signature` check of a POST body. */
module Webhook {
  import opened Wrappers
  import opened Strings

  /** JavaScript's `req.query[key]`: the value, or nothing when the parameter is absent. */
  function Param(query: map<string, string>, key: string): Option<string> {
    if key in query then Some(query[key]) else None
  }

  /** The answer to `GET /webhook`: status 200 echoing the challenge (which may itself be
      absent), or status 403. */
  datatype HandshakeReply = Accept(challenge: Option<string>) | Reject {
    function Status(): int {
      if Accept? then 200 else 403
    }
  }

  /** `GET /webhook`. The configured token is optional because it is read from the environment;
      when it is unset, JavaScript's `undefined === undefined` lets a request without
      `hub.verify_token` through. */
  function Handshake(query: map<string, string>, validationToken: Option<string>): (r: HandshakeReply)
    ensures r.Accept? <==> Param(query, "hub.mode") == Some("subscribe")
                           && Param(query, "hub.verify_token") == validationToken
    ensures r.Accept? ==> r.challenge == Param(query, "hub.challenge") && r.Status() == 200
    ensures r.Reject? ==> r.Status() == 403
  {
    if Param(query, "hub.mode") == Some("subscribe") && Param(query, "hub.verify_token") == validationToken then
      Accept(Param(query, "hub.challenge"))
    else
      Reject
  }

  /** With a configured token, the challenge is echoed exactly for a subscribe request that
      presents that token. */
  lemma HandshakeWithToken(mode: string, token: string, presented: string, challenge: string)
    ensures var q := map["hub.mode" := mode, "hub.verify_token" := presented, "hub.challenge" := challenge];
            Handshake(q, Some(token)) == if mode == "subscribe" && presented == token then Accept(Some(challenge)) else Reject
  {
    var q := map["hub.mode" := mode, "hub.verify_token" := presented, "hub.challenge" := challenge];
    assert Param(q, "hub.mode") == Some(mode);
    assert Param(q, "hub.verify_token") == Some(presented);
    assert Param(q, "hub.challenge") == Some(challenge);
  }

  /** With no configured token, a subscribe request that omits `hub.verify_token` is accepted,
      and one that presents any token is rejected. */
  lemma HandshakeWithoutToken(challenge: string, presented: string)
    ensures Handshake(map["hub.mode" := "subscribe", "hub.challenge" := challenge], None) == Accept(Some(challenge))
    ensures Handshake(map["hub.mode" := "subscribe", "hub.verify_token" := presented], None) == Reject
  {
    var q := map["hub.mode" := "subscribe", "hub.challenge" := challenge];
    assert "hub.verify_token" !in q;
    assert Param(q, "hub.mode") == Some("subscribe");
    var q' := map["hub.mode" := "subscribe", "hub.verify_token" := presented];
    assert Param(q', "hub.verify_token") == Some(presented);
  }

  newtype byte = x: int | 0 <= x < 256

  /** What `verifyRequestSignature` does with a request: `Unverified` (no usable header, logged
      and let through), `Verified` (the digest matches) or `Invalid` (it throws). */
  datatype SignatureCheck = Unverified | Verified | Invalid

  /** `elements[1]` of `header.split('=')`: the second `=`-separated field, if there is one. */
  function SecondField(header: string): (f: Option<string>)
    ensures f.Some? ==> '=' !in f.value
  {
    var elements := SplitOn(header, '=');
    if |elements| >= 2 then Some(elements[1]) else None
  }

  /** `verifyRequestSignature(req, res, buf)`. `header` is `x-hub-signature`; `hmacSha1Hex` is the
      hex HMAC-SHA1 digest of the raw body under the app secret, left uninterpreted. The method
      field before the first `=` is never looked at. */
  function VerifyRequestSignature(header: Option<string>, appSecret: string, buf: seq<byte>,
                                  hmacSha1Hex: (string, seq<byte>) -> string): (r: SignatureCheck)
    ensures r != Unverified <==> header.Some? && header.value != ""
    ensures r == Invalid <==> header.Some? && header.value != "" && SecondField(header.value) != Some(hmacSha1Hex(appSecret, buf))
  {
    if header.None? || header.value == "" then
      Unverified
    else if SecondField(header.value) != Some(hmacSha1Hex(appSecret, buf)) then
      Invalid
    else
      Verified
  }

  /** The second field is the text between the first `=` and the next one (or the end). */
  lemma SecondFieldOf(scheme: string, field: string, rest: string)
    requires '=' !in scheme && '=' !in field
    ensures SecondField(scheme + "=" + field) == Some(field)
    ensures SecondField(scheme + "=" + field + "=" + rest) == Some(field)
  {
    SplitOnFirst(scheme, '=', field);
    SplitOnNone(field, '=');
    assert scheme + "=" + field + "=" + rest == scheme + ['='] + (field + ['='] + rest);
    SplitOnFirst(scheme, '=', field + ['='] + rest);
    SplitOnFirst(field, '=', rest);
  }

  /** A header without any `=` has no second field. */
  lemma SecondFieldMissing(header: string)
    requires '=' !in header
    ensures SecondField(header) == None
  {
    SplitOnNone(header, '=');
  }

  /** Replacing the method name before the first `=` never changes the verdict. */
  lemma MethodFieldIgnored(m1: string, m2: string, rest: string, appSecret: string, buf: seq<byte>,
                           hmacSha1Hex: (string, seq<byte>) -> string)
    requires '=' !in m1 && '=' !in m2
    ensures VerifyRequestSignature(Some(m1 + "=" + rest), appSecret, buf, hmacSha1Hex)
         == VerifyRequestSignature(Some(m2 + "=" + rest), appSecret, buf, hmacSha1Hex)
  {
    SplitOnFirst(m1, '=', rest);
    SplitOnFirst(m2, '=', rest);
  }

  /** For the platform's header form `sha1=<hex>`, the request passes exactly when the hex
      matches the digest, and throws otherwise. */
  lemma PlatformHeader(hex: string, appSecret: string, buf: seq<byte>, hmacSha1Hex: (string, seq<byte>) -> string)
    requires '=' !in hex
    ensures VerifyRequestSignature(Some("sha1=" + hex), appSecret, buf, hmacSha1Hex)
         == if hex == hmacSha1Hex(appSecret, buf) then Verified else Invalid
  {
    SecondFieldOf("sha1", hex, "");
    assert "sha1" + "=" + hex == "sha1=" + hex;
  }
}
