/** `GitHub.validate` of src/GitHub.js: a payload is accepted when it has a repository. */
module GitHubJs {
  import opened Js
  import opened Payload

  /** `!post || !post.repository` rejects; anything else is accepted. */
  function Validate(post: JsInput<Payload>): (ok: bool)
    ensures ok <==> post.Object? && post.fields.repository.Some?
    ensures !Truthy(post) ==> !ok
  {
    if !Truthy(post) then false
    else match post
      case Primitive(_) => false  // a truthy primitive has no `repository` property
      case Object(p) => p.repository.Some?
  }

  /** Only `repository` matters: two payloads that agree on whether it is set agree on the verdict. */
  lemma OnlyRepositoryMatters(p: Payload, q: Payload)
    requires p.repository.Some? == q.repository.Some?
    ensures Validate(Object(p)) == Validate(Object(q))
  {
  }
}

/** `validate({ post })` of src/gitHub.mjs: the same check with a destructured argument. */
module GitHubMjs {
  import opened Js
  import opened Payload

  datatype ValidateArgs = ValidateArgs(post: JsInput<Payload>)

  function Validate(args: ValidateArgs): (ok: bool)
    ensures ok <==> args.post.Object? && args.post.fields.repository.Some?
  {
    if !Truthy(args.post) then false
    else match args.post
      case Primitive(_) => false
      case Object(p) => p.repository.Some?
  }

  /** The three cases of tests/gitHub.test.mjs: null and {} are rejected, and
      `{ repository: {} }` is accepted because an empty object is truthy. */
  lemma TestCases()
    ensures !Validate(ValidateArgs(Primitive(false)))
    ensures !Validate(ValidateArgs(Object(Payload(None, None, None, None, None, None, None))))
    ensures Validate(ValidateArgs(Object(Payload(None, None, Some(Repository(None, None, None)), None, None, None, None))))
  {
  }
}

/** `ConfigValidator.validate` of src/ConfigValidator.js. */
module ConfigValidatorJs {
  import opened Js
  import opened Payload

  /** `!config || typeof config !== 'object' || !config.pwd` rejects; no other property is read. */
  function Validate(config: JsInput<RawConfig>): (ok: bool)
    ensures ok <==> config.Object? && TruthyStr(config.fields.pwd)
  {
    match config
    case Primitive(_) => false
    case Object(c) => TruthyStr(c.pwd)
  }

  /** An empty `pwd` is rejected like a missing one. */
  lemma EmptyPwdRejected(c: RawConfig)
    requires c.pwd == Some("")
    ensures !Validate(Object(c))
  {
  }

  /** The verdict depends on `pwd` alone. */
  lemma OnlyPwdMatters(c: RawConfig, d: RawConfig)
    requires c.pwd == d.pwd
    ensures Validate(Object(c)) == Validate(Object(d))
  {
  }
}

/** `validate({ config })` of src/configValidator.mjs. */
module ConfigValidatorMjs {
  import opened Js
  import opened Payload

  datatype ValidateArgs = ValidateArgs(config: JsInput<RawConfig>)

  function Validate(args: ValidateArgs): (ok: bool)
    ensures ok <==> args.config.Object? && TruthyStr(args.config.fields.pwd)
  {
    match args.config
    case Primitive(_) => false
    case Object(c) => TruthyStr(c.pwd)
  }

  /** The cases of tests/configValidator.test.mjs: null and {} are rejected, `{ pwd: '/tmp' }` accepted. */
  lemma TestCases()
    ensures !Validate(ValidateArgs(Primitive(false)))
    ensures !Validate(ValidateArgs(Object(RawConfig(None, None, None, None, None, None))))
    ensures Validate(ValidateArgs(Object(RawConfig(Some("/tmp"), None, None, None, None, None))))
  {
  }
}
