/** `Notifier` of src/Notifier.js: the run log is fenced with a blank line before it,
    and the release title ends in the characters that the UTF-8 bytes of '🎉' read as
    Windows-1252 (the file holds that text literally). */
module NotifierJs {
  import opened Js
  import opened Payload
  import opened Compose

  const ErrorFence: string := "\n```\n"
  const ReleaseSuffix: string := " has been released! \U{F0}\U{178}\U{17D}\U{2030}"
  const V: Variant := Variant(ErrorFence, ReleaseSuffix)

  /** `Notifier.send(notifyUrl, post, log, hasError)`: nothing without a webhook url;
      otherwise the embed, recoloured and retitled for the outcome, sent as 'Knit'. */
  method Send(notifyUrl: Option<string>, post: Payload, log: string, hasError: bool, o: Oracles)
    returns (sent: Option<Delivery>)
    ensures !TruthyStr(notifyUrl) ==> sent.None?
    ensures TruthyStr(notifyUrl) ==>
              sent == Some(Delivery(notifyUrl.value, [Finish(EmbedFor(V, post, log, hasError, o), hasError)], Username, KnitAvatar))
  {
    if !TruthyStr(notifyUrl) {
      return None;
    }
    var embed := CreateEmbed(V, post, log, hasError, o);
    if hasError {
      embed := embed.(color := Red);
      embed := embed.(title := ErrorPrefix + embed.title);
    } else {
      embed := embed.(title := OkPrefix + embed.title);
    }
    sent := Some(Delivery(notifyUrl.value, [embed], Username, KnitAvatar));
  }

  /** The release announcement of a tag push, as delivered. */
  lemma ReleaseAnnouncement(post: Payload, log: string, hasError: bool, o: Oracles)
    requires IsTagPush(post)
    ensures var e := Finish(EmbedFor(V, post, log, hasError, o), hasError);
            && e.title == (if hasError then ErrorPrefix else OkPrefix)
                          + (LastSegment(RepoName(post)) + " " + post.ref.value[|TagPrefix|..]
                             + " has been released! \U{F0}\U{178}\U{17D}\U{2030}")
            && e.color == (if hasError then Red else Gold)
            && e.description.None? && e.fields.None?
  {
    TagEmbedShape(V, post, log, hasError, o);
  }

  /** After a failed run, any other event shows the log after a blank line. */
  lemma GenericErrorLog(post: Payload, log: string, o: Oracles)
    requires !IsTagPush(post) && post.commits.None? && log != ""
    ensures var e := Finish(EmbedFor(V, post, log, true, o), true);
            e.color == Red && e.description == Some(GenericText + ("\n```\n" + log + "\n```"))
  {
    GenericEmbedShape(V, post, log, true, o);
  }
}
