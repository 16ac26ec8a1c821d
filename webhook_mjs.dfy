/** `createWebhookProcessor({ publisher = Publisher, log } = {})` of
    src/webhookProcessor.mjs: the processor keeps the secret read when it is created,
    its publisher and its logger, and passes the logger on with every message. */
module WebhookProcessorMjs {
  import opened Js
  import opened Payload
  import opened Http
  import SignatureValidatorJs
  import SignatureValidatorMjs
  import opened PublisherMjs

  /** The destructured argument of `validateSignature`. */
  datatype SignatureCheck = SignatureCheck(body: string, signature: Option<string>, secret: string, log: Logger)

  /** `validateSignature({ body, signature, secret, log })`: the error it throws, or
      `None` when it returns. */
  function ValidateSignature(check: SignatureCheck, hmacHex: (string, string) -> string): (thrown: Option<string>)
    ensures check.secret == "" || !TruthyStr(check.signature) ==> thrown == Some(MissingSecretOrSignature)
    ensures check.secret != "" && TruthyStr(check.signature) ==>
              (thrown.None? <==> check.signature.value == SignatureValidatorJs.Expected(check.secret, check.body, hmacHex))
              && (thrown.Some? ==> thrown == Some(InvalidSignature))
  {
    if check.secret == "" || !TruthyStr(check.signature) then Some(MissingSecretOrSignature)
    else InvalidUnless(SignatureValidatorMjs.Validate(SignatureValidatorMjs.ValidateParams(check.body, Some(check.secret), check.signature), hmacHex))
  }

  /** The processor object `createWebhookProcessor` returns. */
  class Processor {
    const secret: string
    const publisher: PublisherState
    const log: Logger

    /** `createWebhookProcessor({ publisher, log })`: an omitted publisher is the
        publisher module; the secret is read here, once. */
    constructor CreateWebhookProcessor(publisher: Option<PublisherState>, log: Logger, env: Option<string>,
                                       publisherModule: PublisherState)
      ensures secret == OrElse(env, "") && this.log == log
      ensures this.publisher == (if publisher.Some? then publisher.value else publisherModule)
    {
      secret := OrElse(env, "");
      this.publisher := if publisher.Some? then publisher.value else publisherModule;
      this.log := log;
    }

    /** `process(req, res)`: with a valid signature, `{ raw, parsed, log }` is published
        exactly once and 200 is sent; otherwise nothing is published and 400 is sent. */
    method Process(req: Request, hmacHex: (string, string) -> string) returns (res: Response)
      modifies publisher
      ensures res == Answer(ValidateSignature(SignatureCheck(req.rawBody, req.signature, secret, log), hmacHex))
      ensures res.status == 200 ==> publisher.tasks == old(publisher.tasks) + [Task(req.rawBody, req.body, log)]
      ensures res.status != 200 ==> publisher.tasks == old(publisher.tasks)
      ensures publisher.isProcessing == old(publisher.isProcessing)
    {
      var thrown := ValidateSignature(SignatureCheck(req.rawBody, req.signature, secret, log), hmacHex);
      if thrown.Some? {
        return Rejected;
      }
      publisher.Publish(req.rawBody, req.body, log);
      res := Accepted;
    }
  }

  /** The second case of tests/webhookProcessor.test.mjs: with the secret 'shhh' and
      no signature header, the request is answered 400 'Webhook processing failed.'. */
  lemma MissingSignatureRejected(log: Logger, hmacHex: (string, string) -> string)
    ensures Answer(ValidateSignature(SignatureCheck("payload", None, "shhh", log), hmacHex))
            == Response(400, Some("Webhook processing failed."))
  {
  }

  /** The signature computed with the processor's secret over the raw body is let
      through; a value without the 'sha256=' prefix never is. */
  lemma GenuineAcceptedUnprefixedRefused(body: string, secret: string, log: Logger, other: string,
                                         hmacHex: (string, string) -> string)
    requires secret != ""
    requires !StartsWith(other, SignatureValidatorJs.SignaturePrefix)
    ensures ValidateSignature(SignatureCheck(body, Some(SignatureValidatorJs.Expected(secret, body, hmacHex)), secret, log), hmacHex).None?
    ensures ValidateSignature(SignatureCheck(body, Some(other), secret, log), hmacHex).Some?
  {
    SignatureValidatorJs.RejectsUnprefixed(body, Some(secret), other, hmacHex);
  }
}
