/** The `X-Hub-Signature-256` check. The digest is HMAC-SHA256 (RFC 2104 over the
    SHA-256 of FIPS 180-4), hex-encoded; it is not computed here but passed in as
    `hmacHex(secret, data)`, an arbitrary function, so every property below holds
    whatever the digest is. */
module SignatureValidatorJs {
  import opened Js

  const SignaturePrefix: string := "sha256="

  /** The signature GitHub sends for `data` under `secret`. */
  function Expected(secret: string, data: string, hmacHex: (string, string) -> string): (sig: string)
    ensures StartsWith(sig, SignaturePrefix)
  {
    SignaturePrefix + hmacHex(secret, data)
  }

  /** `SignatureValidator.validate(data, secret, signature)`. */
  function Validate(data: string, secret: Option<string>, signature: Option<string>,
                    hmacHex: (string, string) -> string): (ok: bool)
    ensures !TruthyStr(secret) || !TruthyStr(signature) ==> !ok
    ensures TruthyStr(secret) && TruthyStr(signature) ==>
              (ok <==> signature.value == Expected(secret.value, data, hmacHex))
  {
    if !TruthyStr(secret) || !TruthyStr(signature) then false
    else Expected(secret.value, data, hmacHex) == signature.value
  }

  /** The signature computed with the shared secret is accepted. */
  lemma AcceptsGenuine(data: string, secret: string, hmacHex: (string, string) -> string)
    requires secret != ""
    ensures Validate(data, Some(secret), Some(Expected(secret, data, hmacHex)), hmacHex)
  {
  }

  /** A presented value that does not start with 'sha256=' is never accepted. */
  lemma RejectsUnprefixed(data: string, secret: Option<string>, signature: string,
                          hmacHex: (string, string) -> string)
    requires !StartsWith(signature, SignaturePrefix)
    ensures !Validate(data, secret, Some(signature), hmacHex)
  {
  }

  /** With an empty or absent secret or signature the digest plays no part in the verdict. */
  lemma NoDigestWithoutInputs(data: string, secret: Option<string>, signature: Option<string>,
                              h1: (string, string) -> string, h2: (string, string) -> string)
    requires !TruthyStr(secret) || !TruthyStr(signature)
    ensures Validate(data, secret, signature, h1) == Validate(data, secret, signature, h2) == false
  {
  }
}

/** `validate({ data, secret, signature })` of src/signatureValidator.mjs. */
module SignatureValidatorMjs {
  import opened Js
  import SignatureValidatorJs

  /** The destructured argument object. */
  datatype ValidateParams = ValidateParams(data: string, secret: Option<string>, signature: Option<string>)

  function Validate(params: ValidateParams, hmacHex: (string, string) -> string): (ok: bool)
    ensures ok <==> TruthyStr(params.secret) && TruthyStr(params.signature)
                    && params.signature.value == SignatureValidatorJs.Expected(params.secret.value, params.data, hmacHex)
  {
    if !TruthyStr(params.secret) || !TruthyStr(params.signature) then false
    else "sha256=" + hmacHex(params.secret.value, params.data) == params.signature.value
  }

  /** tests/signatureValidator.test.mjs: empty secret and signature give false; the
      genuine signature gives true; 'bad' gives false. */
  lemma TestCases(hmacHex: (string, string) -> string)
    ensures !Validate(ValidateParams("foo", Some(""), Some("")), hmacHex)
    ensures Validate(ValidateParams("payload", Some("shhh"), Some("sha256=" + hmacHex("shhh", "payload"))), hmacHex)
    ensures !Validate(ValidateParams("foo", Some("bar"), Some("bad")), hmacHex)
  {
    assert !StartsWith("bad", SignatureValidatorJs.SignaturePrefix);
  }

  /** The module version and the class version agree on every input. */
  lemma AgreesWithClassVersion(params: ValidateParams, hmacHex: (string, string) -> string)
    ensures Validate(params, hmacHex) == SignatureValidatorJs.Validate(params.data, params.secret, params.signature, hmacHex)
  {
  }
}
