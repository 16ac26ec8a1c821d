/** The parts of an Express request and response that the webhook processors use. */
module Http {
  import opened Js
  import opened Payload

  /** `req.rawBody` (the body text as signed), `req.body` (the parsed body) and the
      `x-hub-signature-256` header. */
  datatype Request = Request(rawBody: string, body: JsInput<Payload>, signature: Option<string>)

  /** The status sent and the body text, if one is sent. */
  datatype Response = Response(status: int, body: Option<string>)

  /** `res.sendStatus(200)`. */
  const Accepted: Response := Response(200, None)

  /** `res.status(400).send('Webhook processing failed.')`. */
  const Rejected: Response := Response(400, Some("Webhook processing failed."))

  const MissingSecretOrSignature: string := "Forbidden: Missing secret or signature."
  const InvalidSignature: string := "Forbidden: Invalid signature."

  /** The second check of `validateSignature`: it throws unless the validator agrees. */
  function InvalidUnless(valid: bool): (thrown: Option<string>)
    ensures thrown.None? <==> valid
    ensures thrown.Some? ==> thrown == Some(InvalidSignature)
  {
    if valid then None else Some(InvalidSignature)
  }

  /** The response of `process`: 200 when `validateSignature` returns, 400 whatever it
      throws. */
  function Answer(thrown: Option<string>): (res: Response)
    ensures res.status == 200 <==> thrown.None?
    ensures res.status == 400 <==> thrown.Some?
  {
    if thrown.None? then Accepted else Rejected
  }
}
