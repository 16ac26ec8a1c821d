/** The module of src/WebhookProcessor.mjs. Its module-level `queue`, `secret` and
    `publisherInstance` are the fields of one `WebhookModule` object, which every
    processor it creates shares; `publisherModule` is the imported publisher module.

    Its `validateSignature` calls the validator of src/signatureValidator.mjs
    positionally, `validate(body, secret, signature)`, while that validator takes one
    object and destructures `{ data, secret, signature }` from it. The validator then
    reads those properties off the raw body string, where none exists.
    `ValidateSignatureAsWritten` models that call; `ValidateSignature` the intended one,
    which `Process` uses. */
module WebhookProcessorUpperMjs {
  import opened Js
  import opened Payload
  import opened Http
  import SignatureValidatorJs
  import SignatureValidatorMjs
  import opened PublisherMjs

  /** What `validate` destructures from a string: a string has no `data`, `secret` or
      `signature` property. `data` is undefined as well; it is never read once the
      secret is missing, and the empty string stands for it. */
  function FromString(s: string): (params: SignatureValidatorMjs.ValidateParams)
    ensures params.secret.None? && params.signature.None?
  {
    SignatureValidatorMjs.ValidateParams("", None, None)
  }

  class WebhookModule {
    var queue: string
    var secret: string
    var publisherInstance: PublisherState?
    const publisherModule: PublisherState

    /** The module state when it is loaded. */
    constructor Load(publisherModule: PublisherState, env: Option<string>)
      ensures queue == "inbox" && secret == OrElse(env, "") && publisherInstance == null
      ensures this.publisherModule == publisherModule
    {
      queue := "inbox";
      secret := OrElse(env, "");
      publisherInstance := null;
      this.publisherModule := publisherModule;
    }

    /** `createWebhookProcessor(publisher, customQueue = 'inbox')` overwrites the module
        state that every processor reads; the processor it returns is `Process`. */
    method CreateWebhookProcessor(publisher: PublisherState?, customQueue: Option<string>, env: Option<string>)
      modifies this
      ensures queue == customQueue.GetOr("inbox") && secret == OrElse(env, "")
      ensures publisherInstance == (if publisher != null then publisher else publisherModule)
    {
      queue := customQueue.GetOr("inbox");
      secret := OrElse(env, "");
      publisherInstance := if publisher != null then publisher else publisherModule;
    }

    /** `validateSignature(body, signature)` as written: the positional call hands the
        validator no secret, so it answers false and the request is refused even with
        the genuine signature. */
    function ValidateSignatureAsWritten(body: string, signature: Option<string>,
                                        hmacHex: (string, string) -> string): (thrown: Option<string>)
      reads this
      ensures secret == "" || !TruthyStr(signature) ==> thrown == Some(MissingSecretOrSignature)
      ensures secret != "" && TruthyStr(signature) ==> thrown == Some(InvalidSignature)
    {
      if secret == "" || !TruthyStr(signature) then Some(MissingSecretOrSignature)
      else InvalidUnless(SignatureValidatorMjs.Validate(FromString(body), hmacHex))
    }

    /** `validateSignature(body, signature)` as intended, with the validator called as
        `validate({ data: body, secret, signature })`. */
    function ValidateSignature(body: string, signature: Option<string>,
                               hmacHex: (string, string) -> string): (thrown: Option<string>)
      reads this
      ensures secret == "" || !TruthyStr(signature) ==> thrown == Some(MissingSecretOrSignature)
      ensures secret != "" && TruthyStr(signature) ==>
                (thrown.None? <==> signature.value == SignatureValidatorJs.Expected(secret, body, hmacHex))
                && (thrown.Some? ==> thrown == Some(InvalidSignature))
    {
      if secret == "" || !TruthyStr(signature) then Some(MissingSecretOrSignature)
      else InvalidUnless(SignatureValidatorMjs.Validate(SignatureValidatorMjs.ValidateParams(body, Some(secret), signature), hmacHex))
    }

    /** As written, every request is answered 400, a correctly signed one included,
        while the intended check lets that one through. */
    lemma GenuineSignatureRefused(body: string, hmacHex: (string, string) -> string)
      requires secret != ""
      ensures var genuine := Some(SignatureValidatorJs.Expected(secret, body, hmacHex));
              && Answer(ValidateSignatureAsWritten(body, genuine, hmacHex)) == Rejected
              && Answer(ValidateSignature(body, genuine, hmacHex)) == Accepted
    {
    }

    /** `process(req, res)`: with a valid signature, `{ raw: rawBody, parsed: body }` is
        published once through `publisherInstance` and 200 is sent; otherwise, or when no
        publisher is set (the call throws inside the `try`), nothing is published and
        400 is sent. */
    method Process(req: Request, hmacHex: (string, string) -> string) returns (res: Response)
      modifies publisherInstance
      ensures var thrown := ValidateSignature(req.rawBody, req.signature, hmacHex);
              res == (if thrown.None? && publisherInstance != null then Accepted else Rejected)
      ensures publisherInstance != null && res == Accepted ==>
                publisherInstance.tasks == old(publisherInstance.tasks) + [Task(req.rawBody, req.body, NoLogger)]
      ensures publisherInstance != null && res != Accepted ==>
                publisherInstance.tasks == old(publisherInstance.tasks)
      ensures publisherInstance != null ==> publisherInstance.isProcessing == old(publisherInstance.isProcessing)
    {
      var thrown := ValidateSignature(req.rawBody, req.signature, hmacHex);
      if thrown.Some? || publisherInstance == null {
        return Rejected;
      }
      publisherInstance.Publish(req.rawBody, req.body, NoLogger);
      res := Accepted;
    }
  }

  /** The module state is shared: after two `createWebhookProcessor` calls, a processor
      obtained from the first publishes through the publisher of the second. */
  method LastCreateWins(m: WebhookModule, first: PublisherState, second: PublisherState,
                        env: Option<string>, req: Request, hmacHex: (string, string) -> string)
      returns (res: Response)
    requires first != second
    modifies m, second
    ensures m.publisherInstance == second
    ensures first.tasks == old(first.tasks)
    ensures res == Accepted ==> second.tasks == old(second.tasks) + [Task(req.rawBody, req.body, NoLogger)]
  {
    m.CreateWebhookProcessor(first, None, env);
    m.CreateWebhookProcessor(second, None, env);
    res := m.Process(req, hmacHex);
  }
}
