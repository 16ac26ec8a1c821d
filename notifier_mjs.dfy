/** The module of src/notifier.mjs: `send` and `createEmbed` take one destructured
    object; the run log is fenced by '```text' with no blank line before it.

    `send({ notifyUrl, post, log, hasError, log: logInstance })` binds the property
    `log` twice: as the run output handed to `createEmbed` and as the logger whose
    `info` method it calls before delivering. `SendAsWritten` models that; `Send`
    models the evident intent, with the run output and the logger kept apart. */
module NotifierMjs {
  import opened Js
  import opened Payload
  import opened Compose

  const ErrorFence: string := "```text\n"
  const ReleaseSuffix: string := " has been released! \U{1F389}"
  const V: Variant := Variant(ErrorFence, ReleaseSuffix)

  /** The destructured argument of `send` as written: `log` is whatever the caller passed. */
  datatype SendArgs = SendArgs(notifyUrl: Option<string>, post: Payload, log: LogArg, hasError: bool)

  datatype SendOutcome = NotSent | Sent(delivery: Delivery) | Threw(error: string)

  const InfoNotAFunction: string := "TypeError: logInstance.info is not a function"

  /** `send` as written. A falsy url returns at once. A non-empty string `log` is
      truthy and has no `info` method, so the call on it throws before anything is
      sent. A logger object is delivered, with its text '[object Object]' standing
      for the run output. */
  function SendAsWritten(args: SendArgs, o: Oracles): (out: SendOutcome)
    ensures !TruthyStr(args.notifyUrl) <==> out == NotSent
    ensures TruthyStr(args.notifyUrl) && args.log.Text? && args.log.text != "" ==> out == Threw(InfoNotAFunction)
    ensures out.Sent? ==>
              out.delivery.embeds == [Finish(EmbedFor(V, args.post, LogAsString(args.log), args.hasError, o), args.hasError)]
  {
    if !TruthyStr(args.notifyUrl) then NotSent
    else
      var embed := Finish(EmbedFor(V, args.post, LogAsString(args.log), args.hasError, o), args.hasError);
      if args.log.Text? && args.log.text != "" then Threw(InfoNotAFunction)
      else Sent(Delivery(args.notifyUrl.value, [embed], Username, KnitAvatar))
  }

  /** Whatever the payload, a run output passed as `log` to a real webhook url is
      never delivered. */
  lemma RunOutputNeverDelivered(url: string, post: Payload, output: string, hasError: bool, o: Oracles)
    requires url != "" && output != ""
    ensures SendAsWritten(SendArgs(Some(url), post, Text(output), hasError), o) == Threw(InfoNotAFunction)
  {
  }

  /** A logger passed as `log` after a failed run shows up in a generic embed as the
      text '[object Object]' instead of the run output. */
  lemma LoggerShownAsRunOutput(url: string, post: Payload, o: Oracles)
    requires url != "" && !IsTagPush(post) && post.commits.None?
    ensures var out := SendAsWritten(SendArgs(Some(url), post, LoggerObject, true), o);
            && out.Sent?
            && out.delivery.embeds[0].description == Some(GenericText + ("```text\n" + "[object Object]" + "\n```"))
  {
    GenericEmbedShape(V, post, "[object Object]", true, o);
  }

  /** The argument of the corrected `send`: the run output as text, the logger left out. */
  datatype SendParams = SendParams(notifyUrl: Option<string>, post: Payload, log: string, hasError: bool)

  /** `send` as intended: nothing without a url; otherwise the embed of the run output,
      recoloured and retitled for the outcome, is delivered. */
  method Send(params: SendParams, o: Oracles) returns (sent: Option<Delivery>)
    ensures !TruthyStr(params.notifyUrl) ==> sent.None?
    ensures TruthyStr(params.notifyUrl) ==>
              sent == Some(Delivery(params.notifyUrl.value,
                                    [Finish(EmbedFor(V, params.post, params.log, params.hasError, o), params.hasError)],
                                    Username, KnitAvatar))
  {
    if !TruthyStr(params.notifyUrl) {
      return None;
    }
    var embed := CreateEmbed(V, params.post, params.log, params.hasError, o);
    if params.hasError {
      embed := embed.(color := Red);
      embed := embed.(title := ErrorPrefix + embed.title);
    } else {
      embed := embed.(title := OkPrefix + embed.title);
    }
    sent := Some(Delivery(params.notifyUrl.value, [embed], Username, KnitAvatar));
  }

  /** With the corrected `send`, the run output of a failed run reaches a generic embed
      verbatim, fenced by '```text' with no blank line before it. */
  lemma GenericErrorLog(post: Payload, log: string, o: Oracles)
    requires !IsTagPush(post) && post.commits.None? && log != ""
    ensures var e := Finish(EmbedFor(V, post, log, true, o), true);
            e.color == Red && e.description == Some(GenericText + ("```text\n" + log + "\n```"))
  {
    GenericEmbedShape(V, post, log, true, o);
  }

  /** The release announcement of a tag push, as delivered. */
  lemma ReleaseAnnouncement(post: Payload, log: string, hasError: bool, o: Oracles)
    requires IsTagPush(post)
    ensures var e := Finish(EmbedFor(V, post, log, hasError, o), hasError);
            && e.title == (if hasError then ErrorPrefix else OkPrefix)
                          + (LastSegment(RepoName(post)) + " " + post.ref.value[|TagPrefix|..]
                             + " has been released! \U{1F389}")
            && e.color == (if hasError then Red else Gold)
            && e.description.None? && e.fields.None?
  {
    TagEmbedShape(V, post, log, hasError, o);
  }
}
