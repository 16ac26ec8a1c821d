# knit: a Dafny model of the webhook receiver and the deployment pipeline

knit receives GitHub webhooks. The path through the system is:

1. The webhook processor checks the `X-Hub-Signature-256` header, an HMAC-SHA256 hex
   digest prefixed with `sha256=`.
2. It queues the message with the publisher.
3. The publisher drains its queue one message at a time into the consumer.
4. The consumer validates the payload, looks up the repository's configuration and
   runs the repository's update.
5. The update changes into the working directory, then runs the pre-commands,
   `git pull -q`, `chown -R user:group pwd` and the post-commands. It stops at the
   first failure.
6. It reports the outcome to a Discord webhook as an embed.

Most modules exist as a class-style `.js` file and a module-style `.mjs` file. The
notifier exists three times. Each copy has its own Dafny module here. Behaviour the
copies share is stated once and used by each of them:

- `Pipeline` holds `update`.
- `Compose` holds `createEmbed`.
- `Queue` holds the drain loop.

Where a copy differs, the difference is modelled in its own module. Examples are the
log fence of src/notifier.mjs, the release-title suffix of src/Notifier.js, and the
destructured arguments of the `.mjs` files.

The code that changes state step by step is written as methods with loops and
invariants. Each method is proved equal to a specification function, and the
properties are proved as lemmas about those functions. This covers:

- `update`, with its `log` and `hasError` accumulators;
- `createEmbed`, with its `Set` loops and description loop;
- `send`, which recolours and retitles the embed;
- `#process` and `processTasks`, the drain loops.

Objects whose fields the code updates are classes: `Repo`, `Publisher`,
`WebhookProcessor`, and the module state of src/publisher.mjs and
src/WebhookProcessor.mjs. The validators and the consumer are functions.

What the code calls but the model does not contain is given as parameters:

- `exec(n)` is the result of the n-th command run.
- `chdirOk` says whether `process.chdir` succeeds.
- `get` is the repository lookup.
- `hmacHex` is the digest.
- `Oracles` holds `encodeURIComponent` and the clock.
- `steps` says how each awaited `consume` call ends and what is published meanwhile.

Files: js.dfy, payload.dfy, validators.dfy, signature.dfy, pipeline.dfy, repo_js.dfy,
repo_mjs.dfy, file_sets.dfy, compose.dfy, notifier_js.dfy, notifier_upper_mjs.dfy,
notifier_mjs.dfy, queue.dfy, publisher_js.dfy, publisher_mjs.dfy, consumer.dfy, http.dfy,
webhook_js.dfy, webhook_upper_mjs.dfy, webhook_mjs.dfy.

## Model

| member | source | states |
|---|---|---|
| GitHubJs.Validate | src/GitHub.js:3-7 | a payload is accepted exactly when it is an object with a repository; a falsy payload is rejected |
| GitHubJs.OnlyRepositoryMatters | src/GitHub.js:3-7 | two payloads that agree on having a repository get the same verdict |
| GitHubMjs.Validate | src/gitHub.mjs:7-13 | the same verdict for the destructured `{ post }` |
| GitHubMjs.TestCases | tests/gitHub.test.mjs:12-19 | null and `{}` are rejected; `{ repository: {} }` is accepted |
| ConfigValidatorJs.Validate | src/ConfigValidator.js:18-22 | a config is accepted exactly when it is an object with a non-empty `pwd` |
| ConfigValidatorJs.EmptyPwdRejected | src/ConfigValidator.js:19 | an empty `pwd` is rejected |
| ConfigValidatorJs.OnlyPwdMatters | src/ConfigValidator.js:19-21 | configs with the same `pwd` get the same verdict |
| ConfigValidatorMjs.Validate | src/configValidator.mjs:30-34 | the same verdict for the destructured `{ config }` |
| ConfigValidatorMjs.TestCases | tests/configValidator.test.mjs:35-41 | null and `{}` are rejected; `{ pwd: '/tmp' }` is accepted |
| SignatureValidatorJs.Expected | src/SignatureValidator.js:6 | the expected signature always starts with 'sha256=' |
| SignatureValidatorJs.Validate | src/SignatureValidator.js:4-8 | a missing or empty secret or signature gives false; otherwise true exactly when the signature equals 'sha256=' followed by the hex digest |
| SignatureValidatorJs.AcceptsGenuine | src/SignatureValidator.js:6-7 | the signature computed with a non-empty secret is accepted |
| SignatureValidatorJs.RejectsUnprefixed | src/SignatureValidator.js:6-7 | a value without the 'sha256=' prefix is never accepted |
| SignatureValidatorJs.NoDigestWithoutInputs | src/SignatureValidator.js:5 | with a missing secret or signature, the verdict is false whatever the digest function |
| SignatureValidatorMjs.Validate | src/signatureValidator.mjs:11-15 | true exactly when secret and signature are non-empty and the signature is the expected one |
| SignatureValidatorMjs.TestCases | tests/signatureValidator.test.mjs:7-20 | empty inputs give false, the genuine signature true, 'bad' false |
| SignatureValidatorMjs.AgreesWithClassVersion | src/signatureValidator.mjs:11-15 | the module and class validators agree on every input |
| Js.TrimStartSpec | src/Repo.js:109 | the result is a suffix of the input, does not start with whitespace, and only whitespace was dropped |
| Js.TrimEndSpec | src/Repo.js:109 | the result is a prefix of the input, does not end with whitespace, and only whitespace was dropped |
| Js.TrimSpec | src/Repo.js:109 | the result neither starts nor ends with whitespace and is never longer than the input |
| Js.TrimUnpadded | src/Repo.js:109 | trimming a text without surrounding whitespace leaves it unchanged |
| Js.LastSegment | src/Notifier.js:29 | the result is the part after the last '/', contains no '/', and is a suffix of the input |
| Js.ReplaceFirstOfPrefix | src/Notifier.js:28 | replacing a prefix with '' removes exactly that prefix |
| Js.Take | src/Notifier.js:106 | `substring(0, n)` gives a prefix of length min(n, length) |
| Pipeline.FormatStartsWithStatus | src/Repo.js:106-113 | the output starts with the status line of the exit code; a clean success is that line alone |
| Pipeline.FormatStdoutOnly | src/Repo.js:107-109 | a success that printed only to stdout shows it trimmed under the status line; whitespace-only stdout still leaves an empty line |
| Pipeline.FormatStderrOnly | src/Repo.js:107-111 | a failure that printed only to stderr shows 'ERRORS: ', the trimmed stderr, then 'Exit Code: N' and a blank line |
| Pipeline.FormatEndsWithExitCode | src/Repo.js:111-112 | a non-zero exit code always ends the output as 'Exit Code: N' and a blank line |
| Pipeline.Plan | src/Repo.js:43-95 | the commands in order: pre-commands, 'git pull -q' at the index equal to the number of pre-commands, then the chown, then the post-commands |
| Pipeline.FirstFailure | src/Repo.js:43-95 | the position of the first failing command, or the plan length when every command succeeds |
| Pipeline.Notices | src/Repo.js:129-132 | at most one notification |
| Pipeline.ProgressStart | src/Repo.js:31-32 | the empty run satisfies the progress invariant |
| Pipeline.ProgressStep | src/Repo.js:44-94 | running the next command keeps the invariant: success appends the exit-code-0 output; failure appends the exit-code-1 output, or nothing for the chown, and sets hasError |
| Pipeline.ProgressComplete | src/Repo.js:43-95 | a run that reached the end of the plan without an error ran every command, and all of them succeeded |
| Pipeline.RunFromProgress | src/Repo.js:43-99 | the accumulated commands, log and hasError give exactly the trace of `Run` |
| Pipeline.RunCommand | src/Repo.js:47-54 | one command run appends the command; it appends the exit-code-0 output on success, and on failure the exit-code-1 output (none when silent) and sets hasError |
| Pipeline.RunStages | src/Repo.js:43-95 | the pre loop with its `break`, the pull, the chown and the post loop keep the progress invariant, end with an error or with the whole plan run |
| Pipeline.InvalidBodyDoesNothing | src/Repo.js:19-22 | an invalid body (a tag payload without commits included) gives false, no chdir, no command and no notification |
| Pipeline.TagPushOnlyNotifies | src/Repo.js:25-29 | a tag push gives true, no chdir and no command, and one notification with log '' and no error exactly when `notify` is set |
| Pipeline.ChdirFailureRunsNothing | src/Repo.js:34-41 | a failed chdir gives false, no command, and the log exactly 'Error: Unable to change directory to: <pwd>\n' |
| Pipeline.AllStagesInOrder | src/Repo.js:43-95 | when every command succeeds: true, and the commands are the pre-commands, the pull, the chown and the post-commands, in order |
| Pipeline.FailFast | src/Repo.js:43-95 | the commands run are a prefix of the plan; after a failure, the last command run is the first that failed and all earlier ones succeeded; the result is !hasError |
| Pipeline.PreCommandFailureStopsRun | src/Repo.js:44-55 | a failing pre-command is the last command run, and its exit-code-1 output ends the log |
| Pipeline.ChownFailureIsSilent | src/Repo.js:70-80 | a failing chown sets hasError, runs nothing after it, and adds nothing to the log |
| Pipeline.NotifiesWithFinalLog | src/Repo.js:97-99 | a valid non-tag run notifies once with the final log and hasError exactly when `notify` is set, and returns !hasError |
| Pipeline.SuccessLogReadsPrefix | src/Repo.js:43-95 | the success log depends only on the results of the commands it covers |
| Pipeline.FirstFailureReadsPrefix | src/Repo.js:43-95 | where the first failure lies depends only on results up to it |
| Pipeline.ResultsAfterFailureIgnored | src/Repo.js:43-95 | results of commands after the first failure never change the run |
| RepoJs.Repo.constructor | src/Repo.js:8-15 | `pwd` copied; pre and post default to []; user and group default to 'root'; a falsy `notify` becomes null |
| RepoJs.Repo.SendNotification | src/Repo.js:129-132 | one notification with the given body, log and flag when `notify` is truthy, none otherwise |
| RepoJs.Repo.Update | src/Repo.js:17-100 | `update` run stage by stage equals `Pipeline.Run` for every body, chdir outcome and command result |
| RepoMjs.Repo.CreateRepo | src/repo.mjs:7-14 | the same defaults as the class constructor |
| RepoMjs.Repo.Update | src/repo.mjs:15-89 | `update` run stage by stage equals `Pipeline.Run` |
| RepoMjs.SendNotification | src/repo.mjs:120-123 | one notification when `repo.notify` is truthy, none otherwise |
| FileSets.Insert | src/Notifier.js:73 | `add` keeps what the set held, in order, and adds the value once |
| FileSets.InsertAllMembers | src/Notifier.js:71-80 | after the add loops the set holds exactly the old values and the added ones |
| FileSets.InsertAllNoDups | src/Notifier.js:71-80 | the add loops never create a duplicate |
| FileSets.InsertAllExtends | src/Notifier.js:71-80 | adding never reorders or drops earlier values |
| FileSets.InsertAllConcat | src/Notifier.js:71-94 | two add passes are one pass over both lists |
| FileSets.DistinctProperties | src/Notifier.js:67-94 | `new Set(xs)` has no duplicates, holds exactly the values of xs, and lists those of a prefix first |
| FileSets.DistinctOfDistinct | src/Notifier.js:142 | a duplicate-free list passes through a set unchanged |
| FileSets.FilterMembers | src/Notifier.js:96-99 | after the deletions a set holds exactly its values that were not deleted |
| FileSets.FilterNoDups | src/Notifier.js:96-99 | deleting keeps a set duplicate-free |
| FileSets.FilterConcat | src/Notifier.js:96-99 | deleting from a concatenation deletes from each part |
| FileSets.DeleteAfterFilter | src/Notifier.js:96-99 | one more `delete` extends the deleted values by one |
| FileSets.FilterNothing | src/Notifier.js:96-99 | deleting nothing changes nothing |
| FileSets.AddEach | src/Notifier.js:73 | the `forEach(add)` loop computes exactly the set after the adds |
| Compose.RepoName | src/Notifier.js:26 | the repository name, or 'Unknown Repository'; never empty |
| Compose.AuthorOf | src/Notifier.js:38-51 | name: the pusher's or 'unknown'; icon: the sender's avatar, else the repository owner's; url: 'https://github.com/<pusher>' exactly when a pusher name exists |
| Compose.FileFields | src/Notifier.js:137-159 | New, Deleted and Modified in that order, each only when non-empty, none inline |
| Compose.Cap | src/Notifier.js:113-116 | at most 2000 characters; a shorter text is unchanged, a longer one becomes its first 1997 characters and '...' |
| Compose.Finish | src/Notifier.js:7-12 | on error the embed is red with title '❌ Error: ' + title; otherwise the title gets '✅ ' and the colour is kept; nothing else changes |
| Compose.AddCommitFiles | src/Notifier.js:71-81 | each file list of a commit that is an array is added to the matching set |
| Compose.DistinctFlattenStep | src/Notifier.js:70-94 | the sets after one more commit are the earlier sets with that commit's lists added |
| Compose.DeleteModified | src/Notifier.js:95-99 | the modified-files loop deletes every modified file from the added and removed sets |
| Compose.CollectFiles | src/Notifier.js:66-99 | the three sets the loops build over `commits` and `head_commit` are the New, Deleted and Modified lists |
| Compose.DescribeCommits | src/Notifier.js:101-108 | the description loop gives the header followed by each commit's line, in order |
| Compose.CreateEmbed | src/Notifier.js:22-175 | `createEmbed`, built field by field with its loops, gives exactly `EmbedFor` |
| Compose.TagEmbedShape | src/Notifier.js:25-53 | the release embed: the short repository name, the tag (the ref without 'refs/tags/') and the suffix as title; the encoded release url, or the repository url when the tag is empty; gold; no description or fields |
| Compose.TagIgnoresRun | src/Notifier.js:25-53 | the run log and the error flag never reach a tag embed |
| Compose.LogOnlyOnError | src/Notifier.js:110-112 | without an error the log plays no part; an empty log with an error is like no error |
| Compose.ModifiedWins | src/Notifier.js:95-99 | a file modified anywhere is never listed as new or deleted |
| Compose.FileListMembers | src/Notifier.js:66-99 | Modified holds the modified files of any commit; New (Deleted) holds the added (removed) files that no commit modifies |
| Compose.FileListsDuplicateFree | src/Notifier.js:67-99 | each list is duplicate-free |
| Compose.FlattenConcat | src/Notifier.js:70-94 | the lists of a concatenation of commits are the lists of its parts |
| Compose.FileListsInFirstSeenOrder | src/Notifier.js:70-99 | the files of the first i commits come first in each list, in first-seen order |
| Compose.CommitFields | src/Notifier.js:137-159 | a commit embed's fields are New, Deleted and Modified, in order, each only when non-empty, with the count in the name |
| Compose.CommitLinesConcat | src/Notifier.js:103-108 | one line per commit, in order |
| Compose.DescriptionBounded | src/Notifier.js:113-117 | a commit embed's description never exceeds 2000 characters |
| Compose.TrimStartKeeps | src/Notifier.js:117 | a text that starts with a non-space keeps its start under `trim` |
| Compose.LongDescriptionCut | src/Notifier.js:114-117 | a raw description over 2000 characters becomes its first 1997 characters and '...', 2000 in all |
| Compose.RunLogShownWhenItFits | src/Notifier.js:109-117 | after a failed run with a non-empty log, a description that fits is the whole raw text, ending with the fenced log |
| Compose.DescriptionStartsWithHeader | src/Notifier.js:101-117 | the description starts with 'Branch: **<branch>** - Commits: **<n>**' whenever that header fits |
| Compose.GenericEmbedShape | src/Notifier.js:161-171 | any other event: title '<repository> - <action>', blue, the fixed text, then the fenced log only after a failed run with a non-empty log |
| NotifierJs.Send | src/Notifier.js:4-20 | nothing without a url; otherwise one embed, created, recoloured and retitled for the outcome, sent as 'Knit' with the knit avatar |
| NotifierJs.ReleaseAnnouncement | src/Notifier.js:25-34 | a tag push is announced with the prefixed release title, which ends in the mojibake text the file holds, gold unless failed, without description or fields |
| NotifierJs.GenericErrorLog | src/Notifier.js:161-170 | a failed run's log appears in a generic embed after '\n```\n' |
| NotifierUpperMjs.Send | src/Notifier.mjs:3-18 | the same delivery as the class version |
| NotifierUpperMjs.ReleaseAnnouncement | src/Notifier.mjs:22-30 | the release title ends in ' has been released! 🎉' |
| NotifierUpperMjs.GenericErrorLog | src/Notifier.mjs:142-151 | a failed run's log appears after '\n```\n' |
| NotifierMjs.SendAsWritten | src/notifier.mjs:11-29 | as written: nothing without a url; a non-empty string `log` throws a TypeError before sending; otherwise the embed of the text of `log` is sent |
| NotifierMjs.RunOutputNeverDelivered | src/notifier.mjs:11-20 | a non-empty run output passed as `log` to a real url is never delivered |
| NotifierMjs.LoggerShownAsRunOutput | src/notifier.mjs:11-13 | a logger passed as `log` shows up as '[object Object]' in place of the run output |
| NotifierMjs.Send | src/notifier.mjs:11-29 | corrected: nothing without a url; otherwise the finished embed of the run output, sent as 'Knit' |
| NotifierMjs.GenericErrorLog | src/notifier.mjs:161-170 | a failed run's log appears after '```text\n', with no blank line before it |
| NotifierMjs.ReleaseAnnouncement | src/notifier.mjs:41-49 | the release title ends in ' has been released! 🎉'; gold unless failed; no description or fields |
| Queue.DrainedInQueueOrder | src/Publisher.js:16-24 | a drain consumes the queued tasks and then every task published while it runs, each once, in queue order, and stops only when nothing is left |
| Queue.DrainedWithoutArrivals | src/Publisher.js:16-24 | with nothing published meanwhile, exactly the queued tasks are consumed, in order |
| Queue.DrainedIgnoresOutcomes | src/Publisher.js:18-23 | a throwing `consume` does not change what is consumed after it |
| PublisherJs.Publisher.constructor | src/Publisher.js:4-5 | an empty queue, not processing |
| PublisherJs.Publisher.Publish | src/Publisher.js:7-11 | the payload is appended at the end; the existing entries and the flag are unchanged |
| PublisherJs.Publisher.Process | src/Publisher.js:13-26 | nothing happens while busy or with an empty queue; otherwise the drain consumes `Drained(tasks)` and ends with an empty queue and the flag cleared |
| PublisherMjs.ConsumeArgsOf | src/publisher.mjs:25-28 | an entry reaches `consume` as `{ message: { raw, parsed }, log }` |
| PublisherMjs.Forwarded | src/publisher.mjs:24-32 | one `consume` argument per entry, in order |
| PublisherMjs.PublisherState.constructor | src/publisher.mjs:3-4 | empty `tasks`, `isProcessing` false |
| PublisherMjs.PublisherState.Publish | src/publisher.mjs:11-15 | exactly one `{ raw, parsed, log }` entry is appended |
| PublisherMjs.PublisherState.ProcessTasks | src/publisher.mjs:21-34 | returns at once while busy or empty; otherwise forwards every drained entry in order, swallowing rejections, and ends empty and not processing |
| PublisherMjs.EntriesForwardedInOrder | src/publisher.mjs:24-28 | each queued entry reaches `consume` once, in queue order, with its own raw body, parsed body and logger |
| ConsumerJs.Consume | src/Consumer.js:5-24 | a failed validation returns false with no lookup; the lookup is by `repository.full_name`; a null lookup returns false with no update |
| ConsumerJs.SucceedsIffEveryStepDoes | src/Consumer.js:8-23 | true exactly when validation, lookup and update all succeed; the calls made are the chain up to the first failure |
| ConsumerJs.SuccessMeansDeployed | src/Consumer.js:17-23 | a successful consume was a tag push, which runs nothing, or a push whose whole plan ran and succeeded |
| ConsumerMjs.Consume | src/consumer.mjs:11-30 | the calls are `Repo.get({ name: full_name })`, then `update({ body: post, log })`, made in that order |
| ConsumerMjs.SucceedsIffEveryStepDoes | src/consumer.mjs:14-29 | true exactly when all three steps succeed; an update is made exactly when validation and lookup succeed |
| ConsumerMjs.TestCases | tests/consumer.test.mjs:14-43 | the four cases: validation failure, repository not found, update failure, success |
| Http.InvalidUnless | src/WebhookProcessor.js:32-34 | the second check throws 'Forbidden: Invalid signature.' exactly when the validator says no |
| Http.Answer | src/WebhookProcessor.js:21-24 | 200 exactly when nothing was thrown, 400 'Webhook processing failed.' otherwise |
| WebhookProcessorJs.WebhookProcessor.constructor | src/WebhookProcessor.js:5-9 | queue defaults to 'inbox', secret to '', publisher to a new empty one |
| WebhookProcessorJs.WebhookProcessor.ValidateSignature | src/WebhookProcessor.js:28-35 | a missing secret or signature throws the 'Missing' error; otherwise it passes exactly the genuine signature and throws the 'Invalid' error otherwise |
| WebhookProcessorJs.WebhookProcessor.MissingInputsSkipDigest | src/WebhookProcessor.js:29-31 | a missing secret or signature is refused before the digest plays any part |
| WebhookProcessorJs.WebhookProcessor.Process | src/WebhookProcessor.js:11-26 | a valid signature publishes `{ raw, parsed }` exactly once and answers 200; otherwise nothing is published and the answer is 400 |
| WebhookProcessorUpperMjs.FromString | src/WebhookProcessor.mjs:34 | destructuring `{ data, secret, signature }` from a string finds no secret and no signature |
| WebhookProcessorUpperMjs.WebhookModule.Load | src/WebhookProcessor.mjs:4-6 | queue 'inbox', secret from the environment or '', no publisher |
| WebhookProcessorUpperMjs.WebhookModule.CreateWebhookProcessor | src/WebhookProcessor.mjs:8-11 | overwrites the shared queue, secret and publisher; the publisher defaults to the publisher module |
| WebhookProcessorUpperMjs.WebhookModule.ValidateSignatureAsWritten | src/WebhookProcessor.mjs:30-37 | as written, every request with a secret and a signature throws 'Forbidden: Invalid signature.' |
| WebhookProcessorUpperMjs.WebhookModule.ValidateSignature | src/WebhookProcessor.mjs:30-37 | corrected: passes exactly the genuine signature, with the same two errors |
| WebhookProcessorUpperMjs.WebhookModule.GenuineSignatureRefused | src/WebhookProcessor.mjs:34 | a correctly signed request is answered 400 as written and 200 when corrected |
| WebhookProcessorUpperMjs.WebhookModule.Process | src/WebhookProcessor.mjs:13-26 | corrected: a valid signature publishes exactly one `{ raw, parsed }` entry through the shared publisher and answers 200; otherwise, or with no publisher set, 400 |
| WebhookProcessorUpperMjs.LastCreateWins | src/WebhookProcessor.mjs:8-11 | after two `createWebhookProcessor` calls every processor publishes through the second publisher; the first is untouched |
| WebhookProcessorMjs.ValidateSignature | src/webhookProcessor.mjs:45-54 | a missing secret or signature throws the 'Missing' error; otherwise it passes exactly the genuine signature |
| WebhookProcessorMjs.Processor.CreateWebhookProcessor | src/webhookProcessor.mjs:11-12 | the secret is read once, at creation, defaulting to ''; an omitted publisher is the publisher module |
| WebhookProcessorMjs.Processor.Process | src/webhookProcessor.mjs:19-32 | a valid signature publishes exactly one `{ raw, parsed, log }` and answers 200; otherwise nothing is published and the answer is 400 |
| WebhookProcessorMjs.MissingSignatureRejected | tests/webhookProcessor.test.mjs:26-39 | with secret 'shhh' and no signature the answer is 400 'Webhook processing failed.' |
| WebhookProcessorMjs.GenuineAcceptedUnprefixedRefused | src/webhookProcessor.mjs:50-53 | the genuine signature passes; a value without 'sha256=' never does |

## Left out

- I/O is not modelled. Shell execution (`execCommand`), `process.chdir`, the configuration
  file lookup `Repo.get`/`get` with `validateJsonFile`, Discord delivery and `sendMessage`
  are all outside the model. They become the parameters `exec`, `chdirOk` and `get`, and
  deliveries and notifications are returned as values.
- The HMAC-SHA256 digest, `encodeURIComponent` and `new Date().toISOString()` are not
  computed. They are parameters, so every property holds whatever they return.
- Event-loop scheduling is not modelled: `setImmediate`, `await` interleaving and timing.
  `Publish` only queues, and the caller runs `Process`/`ProcessTasks`. What is published
  during an awaited `consume` is given by `steps`. The single-flight guard is the
  `isProcessing` flag, which stays set through the whole drain.
- Logging (`console.*`, `log.info`, `log.error`) is not modelled. The `log` argument of
  src/publisher.mjs, src/consumer.mjs and src/webhookProcessor.mjs is a logger or nothing
  (`Js.Logger`), as the doc comments of src/consumer.mjs and src/webhookProcessor.mjs require. A string passed there, which would make
  `log.info` throw, is outside the model. The `err.message` text
  of a thrown error never reaches a response.
- Length counts characters, not UTF-16 code units. The 2000-character cap and `substr`
  therefore count a character outside the BMP, such as 🎉, once rather than twice.
- A payload property of the wrong JSON type is treated as absent. This covers a string
  `commits`, a non-string `ref` and a non-array file list. A `commits` entry that is not
  an object, which makes the source throw, is not modelled.
- A `pre`/`post` value in a configuration that is truthy but not an array is not
  modelled; the source would iterate it.
- The `.mjs` calling conventions are not reconciled. Each function is modelled by its own
  signature:
  - src/consumer.mjs:18 passes `{ name }`.
  - src/consumer.mjs:23 passes `{ body, log }`.
  - src/repo.mjs:137 passes `config` positionally to the destructuring `validate` of
    src/configValidator.mjs:30.
  - src/repo.mjs:122 calls the destructuring `send` of src/notifier.mjs positionally.
- `validatebody` and `formatCommandOutput` of src/repo.mjs are the same functions as in
  src/Repo.js. Both copies are modelled once, by `Pipeline.ValidBody` and
  `Pipeline.FormatCommandOutput`.
- The embed is built as a value. The source builds one object and assigns to its
  properties, so aliasing of that object is not modelled.
- `rawBody` is taken to be a string, as the raw-body middleware gives it.
- An explicit `null` publisher passed to src/webhookProcessor.mjs is not modelled. Its
  default parameter applies only to `undefined`, so a `null` would reach `publish` and
  throw.
- Compose.DescriptionStartsWithHeader: it leaves out the header's final newline, because
  `trim` removes it when no commit line or log follows.
- The interactive wizard, the git helpers, the HTTP bootstrap (App, express, dotenv) and
  the Discord modules are not part of this model.

## Findings

| source | as written | input that shows it | evidently intended | confidence | as-written member | corrected member |
|---|---|---|---|---|---|---|
| src/notifier.mjs:11 | `send({ notifyUrl, post, log, hasError, log: logInstance })` binds the property `log` both as the run output and as the logger whose `info` is called at line 20 | a truthy url with `log` set to a non-empty run output: `logInstance.info` is not a function, so `send` throws before anything is delivered | the run output and the logger kept in two properties | high, not executed | NotifierMjs.SendAsWritten | NotifierMjs.Send |
| src/WebhookProcessor.mjs:34 | `SignatureValidator.validate(body, secret, signature)` calls the validator of src/signatureValidator.mjs, which destructures `{ data, secret, signature }` from its first argument | any request with a secret configured and the genuine signature: the validator finds no secret on the body string and returns false, so the answer is 400 | `validate({ data: body, secret, signature })` | high, not executed | WebhookProcessorUpperMjs.WebhookModule.ValidateSignatureAsWritten | WebhookProcessorUpperMjs.WebhookModule.ValidateSignature |
