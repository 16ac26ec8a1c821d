/** The `WebhookProcessor` class of src/WebhookProcessor.js: the signature gate in
    front of the queue. `process.env.GITHUB_WEBHOOK_SECRET` is the parameter `env` and
    the digest the parameter `hmacHex`. */
module WebhookProcessorJs {
  import opened Js
  import opened Payload
  import opened Http
  import SignatureValidatorJs
  import opened PublisherJs

  class WebhookProcessor {
    var queue: string
    var secret: string
    var publisher: Publisher

    /** `new WebhookProcessor(publisher, queue = 'inbox')`: the secret falls back to ''
        and a missing publisher to a new, empty one. */
    constructor (publisher: Publisher?, queue: Option<string>, env: Option<string>)
      ensures this.queue == queue.GetOr("inbox")
      ensures secret == OrElse(env, "")
      ensures publisher != null ==> this.publisher == publisher
      ensures publisher == null ==> fresh(this.publisher) && this.publisher.tasks == [] && !this.publisher.isProcessing
    {
      this.queue := queue.GetOr("inbox");
      secret := OrElse(env, "");
      if publisher != null {
        this.publisher := publisher;
      } else {
        this.publisher := new Publisher();
      }
    }

    /** `validateSignature(body, signature)`: the error it throws, or `None` when it
        returns. A missing secret or signature is refused before the validator runs;
        otherwise only the genuine signature passes. */
    function ValidateSignature(body: string, signature: Option<string>, hmacHex: (string, string) -> string): (thrown: Option<string>)
      reads this
      ensures secret == "" || !TruthyStr(signature) ==> thrown == Some(MissingSecretOrSignature)
      ensures secret != "" && TruthyStr(signature) ==>
                (thrown.None? <==> signature.value == SignatureValidatorJs.Expected(secret, body, hmacHex))
                && (thrown.Some? ==> thrown == Some(InvalidSignature))
    {
      if secret == "" || !TruthyStr(signature) then Some(MissingSecretOrSignature)
      else InvalidUnless(SignatureValidatorJs.Validate(body, Some(secret), signature, hmacHex))
    }

    /** When the secret or the signature is missing, the digest plays no part. */
    lemma MissingInputsSkipDigest(body: string, signature: Option<string>,
                                  h1: (string, string) -> string, h2: (string, string) -> string)
      requires secret == "" || !TruthyStr(signature)
      ensures ValidateSignature(body, signature, h1) == ValidateSignature(body, signature, h2)
    {
    }

    /** `process(req, res)`: with a valid signature, `{ raw: rawBody, parsed: body }` is
        published exactly once and 200 is sent; otherwise nothing is published and 400
        is sent. */
    method Process(req: Request, hmacHex: (string, string) -> string) returns (res: Response)
      modifies publisher
      ensures res == Answer(ValidateSignature(req.rawBody, req.signature, hmacHex))
      ensures res.status == 200 ==> publisher.tasks == old(publisher.tasks) + [Message(req.rawBody, req.body)]
      ensures res.status != 200 ==> publisher.tasks == old(publisher.tasks)
      ensures publisher.isProcessing == old(publisher.isProcessing)
    {
      var thrown := ValidateSignature(req.rawBody, req.signature, hmacHex);
      if thrown.Some? {
        return Rejected;
      }
      publisher.Publish(Message(req.rawBody, req.body));
      res := Accepted;
    }
  }
}
