/** `Consumer.consume(message)` of src/Consumer.js: validate the payload, look the
    repository up by its full name, run its update; each step returns false at once
    when it fails. `Repo.get`, which reads and validates `repos/<name>.json`, is the
    parameter `get`: the settings of the repository it finds, or `None` for null. */
module ConsumerJs {
  import opened Js
  import opened Payload
  import opened Pipeline
  import GitHubJs

  /** A call `consume` makes to a collaborator, with what it passed or got back. */
  datatype Call = GetRepo(name: Option<string>) | UpdateRepo(settings: Settings, trace: RunTrace)

  datatype Consumed = Consumed(ok: bool, calls: seq<Call>)

  /** `post.repository.full_name`, read once validation has passed. */
  function FullName(post: JsInput<Payload>): Option<string>
    requires GitHubJs.Validate(post)
  {
    post.fields.repository.value.fullName
  }

  function Consume(message: Message, get: Option<string> -> Option<Settings>,
                   chdirOk: bool, exec: nat -> ExecResult): (r: Consumed)
    ensures !GitHubJs.Validate(message.parsed) ==> r == Consumed(false, [])
    ensures GitHubJs.Validate(message.parsed) ==>
              && |r.calls| >= 1 && r.calls[0] == GetRepo(FullName(message.parsed))
              && (get(FullName(message.parsed)).None? <==> r == Consumed(false, [GetRepo(FullName(message.parsed))]))
  {
    var post := message.parsed;
    if !GitHubJs.Validate(post) then Consumed(false, [])
    else
      var name := FullName(post);
      match get(name)
      case None => Consumed(false, [GetRepo(name)])
      case Some(repo) =>
        var trace := Run(repo, post, chdirOk, exec);
        Consumed(trace.result, [GetRepo(name), UpdateRepo(repo, trace)])
  }

  /** The whole chain, as a reference: the lookup and the update in this order. */
  function Chain(message: Message, get: Option<string> -> Option<Settings>,
                 chdirOk: bool, exec: nat -> ExecResult): seq<Call>
    requires GitHubJs.Validate(message.parsed)
  {
    var name := FullName(message.parsed);
    [GetRepo(name)] + (if get(name).Some? then [UpdateRepo(get(name).value, Run(get(name).value, message.parsed, chdirOk, exec))] else [])
  }

  /** The result is true exactly when validation, lookup and update all succeed, and
      no step after a failing one is invoked: the calls made are a prefix of the
      chain, the whole of it on success. */
  lemma SucceedsIffEveryStepDoes(message: Message, get: Option<string> -> Option<Settings>,
                                 chdirOk: bool, exec: nat -> ExecResult)
    ensures var r := Consume(message, get, chdirOk, exec);
            && (r.ok <==> GitHubJs.Validate(message.parsed)
                          && get(FullName(message.parsed)).Some?
                          && Run(get(FullName(message.parsed)).value, message.parsed, chdirOk, exec).result)
            && (GitHubJs.Validate(message.parsed) ==> r.calls == Chain(message, get, chdirOk, exec))
            && (r.ok ==> |r.calls| == 2)
  {
  }

  /** A consumed message that succeeds was a tag push, which runs no command, or a
      push whose every planned command was run and succeeded. */
  lemma SuccessMeansDeployed(message: Message, get: Option<string> -> Option<Settings>,
                             chdirOk: bool, exec: nat -> ExecResult)
    requires Consume(message, get, chdirOk, exec).ok
    ensures var s := get(FullName(message.parsed)).value;
            var t := Run(s, message.parsed, chdirOk, exec);
            && ValidBody(message.parsed)
            && (IsTagPush(message.parsed.fields) ==> t.commands == [])
            && (!IsTagPush(message.parsed.fields) ==>
                  chdirOk && t.commands == Plan(s) && forall k :: 0 <= k < |Plan(s)| ==> exec(k).ok)
  {
    var s := get(FullName(message.parsed)).value;
    var plan := Plan(s);
    if !IsTagPush(message.parsed.fields) {
      var f := FirstFailure(|plan|, exec, 0);
      assert f == |plan|;
      assert plan[..f] == plan;
    }
  }
}

/** `consume({ message, log })` of src/consumer.mjs: the same chain over destructured
    arguments. Its collaborators are called as written, `Repo.get({ name })` and
    `repo.update({ body: post, log })`; `get` and `update` stand for what those calls
    give back. */
module ConsumerMjs {
  import opened Js
  import opened Payload
  import GitHubMjs

  datatype ConsumeArgs = ConsumeArgs(message: Message, log: Logger)
  datatype GetArgs = GetArgs(name: Option<string>)
  datatype UpdateArgs = UpdateArgs(body: Payload, log: Logger)

  datatype Call = GetRepo(getArgs: GetArgs) | UpdateRepo(updateArgs: UpdateArgs)

  datatype Consumed = Consumed(ok: bool, calls: seq<Call>)

  function Consume(args: ConsumeArgs, get: GetArgs -> bool, update: UpdateArgs -> bool): (r: Consumed)
    ensures !GitHubMjs.Validate(GitHubMjs.ValidateArgs(args.message.parsed)) ==> r == Consumed(false, [])
    ensures r.calls != [] ==> r.calls[0] == GetRepo(GetArgs(args.message.parsed.fields.repository.value.fullName))
    ensures |r.calls| == 2 ==> r.calls[1] == UpdateRepo(UpdateArgs(args.message.parsed.fields, args.log))
  {
    var post := args.message.parsed;
    if !GitHubMjs.Validate(GitHubMjs.ValidateArgs(post)) then Consumed(false, [])
    else
      var getArgs := GetArgs(post.fields.repository.value.fullName);
      if !get(getArgs) then Consumed(false, [GetRepo(getArgs)])
      else
        var updateArgs := UpdateArgs(post.fields, args.log);
        Consumed(update(updateArgs), [GetRepo(getArgs), UpdateRepo(updateArgs)])
  }

  /** True exactly when validation, lookup and update all succeed; a failed lookup
      runs no update, and a failed validation looks nothing up. */
  lemma SucceedsIffEveryStepDoes(args: ConsumeArgs, get: GetArgs -> bool, update: UpdateArgs -> bool)
    ensures var r := Consume(args, get, update);
            var post := args.message.parsed;
            && (r.ok <==> GitHubMjs.Validate(GitHubMjs.ValidateArgs(post))
                          && get(GetArgs(post.fields.repository.value.fullName))
                          && update(UpdateArgs(post.fields, args.log)))
            && (|r.calls| == 2 <==> GitHubMjs.Validate(GitHubMjs.ValidateArgs(post))
                                    && get(GetArgs(post.fields.repository.value.fullName)))
            && (r.ok ==> |r.calls| == 2)
  {
  }

  /** The four cases of tests/consumer.test.mjs, on a message whose payload names the
      repository 'foo'. */
  lemma TestCases(log: Logger, update: UpdateArgs -> bool)
    ensures !Consume(ConsumeArgs(Message("", Object(Payload(None, None, None, None, None, None, None))), log),
                     _ => true, update).ok
    ensures var post := Payload(None, None, Some(Repository(Some("foo"), None, None)), None, None, None, None);
            && Consume(ConsumeArgs(Message("", Object(post)), log), _ => false, update)
               == Consumed(false, [GetRepo(GetArgs(Some("foo")))])
            && !Consume(ConsumeArgs(Message("", Object(post)), log), _ => true, _ => false).ok
            && Consume(ConsumeArgs(Message("", Object(post)), log), _ => true, _ => true).ok
  {
  }
}
