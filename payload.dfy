/** The parts of a GitHub webhook payload that the pipeline and the notification
    composer read, and the per-repository configuration document. Every property is
    optional: `None` stands for a property that is absent, null, or not of the type
    GitHub sends. */
module Payload {
  import opened Js

  datatype Owner = Owner(avatarUrl: Option<string>)

  datatype Repository = Repository(fullName: Option<string>, htmlUrl: Option<string>, owner: Option<Owner>)

  datatype Pusher = Pusher(name: Option<string>)

  datatype Sender = Sender(avatarUrl: Option<string>)

  /** One commit of `commits`, or `head_commit`; a file list that is not an array is `None`. */
  datatype Commit = Commit(
    id: Option<string>,
    message: Option<string>,
    url: Option<string>,
    timestamp: Option<string>,
    added: Option<seq<string>>,
    removed: Option<seq<string>>,
    modified: Option<seq<string>>)

  /** The webhook body. `commits` is `Some` exactly when the property is an array
      (an empty array included, which is truthy). */
  datatype Payload = Payload(
    ref: Option<string>,
    action: Option<string>,
    repository: Option<Repository>,
    pusher: Option<Pusher>,
    sender: Option<Sender>,
    commits: Option<seq<Commit>>,
    headCommit: Option<Commit>)

  /** What the HTTP endpoint hands to the queue: the raw body text, exactly as
      signed, and the parsed body. */
  datatype Message = Message(raw: string, parsed: JsInput<Payload>)

  const TagPrefix: string := "refs/tags/"
  const BranchPrefix: string := "refs/heads/"

  /** `post.ref && post.ref.startsWith('refs/tags/')`. */
  predicate IsTagPush(p: Payload) {
    TruthyStr(p.ref) && StartsWith(p.ref.value, TagPrefix)
  }

  /** The repository configuration document `repos/<owner>/<repo>.json`. */
  datatype RawConfig = RawConfig(
    pwd: Option<string>,
    pre: Option<seq<string>>,
    post: Option<seq<string>>,
    user: Option<string>,
    group: Option<string>,
    notify: Option<string>)
}
