/** The `Repo` class of src/Repo.js: the repository settings as fields and the
    deployment run `update`, written as the source writes it (stage by stage, with the
    two accumulators `log` and `hasError`) and proved equal to `Pipeline.Run`. */
module RepoJs {
  import opened Js
  import opened Payload
  import opened Pipeline

  class Repo {
    var pwd: Option<string>
    var preCmds: seq<string>
    var postCmds: seq<string>
    var user: string
    var group: string
    var notify: Option<string>

    /** The fields as one value. */
    function Settings(): Pipeline.Settings
      reads this
    {
      Pipeline.Settings(pwd, preCmds, postCmds, user, group, notify)
    }

    /** `new Repo(config)`: `pwd` copied, the command lists default to `[]`, user and
        group to 'root', and a falsy `notify` becomes null. */
    constructor (config: RawConfig)
      ensures pwd == config.pwd
      ensures preCmds == config.pre.GetOr([]) && postCmds == config.post.GetOr([])
      ensures user == OrElse(config.user, "root") && group == OrElse(config.group, "root")
      ensures notify == (if TruthyStr(config.notify) then config.notify else None)
    {
      pwd := config.pwd;
      preCmds := config.pre.GetOr([]);
      postCmds := config.post.GetOr([]);
      user := OrElse(config.user, "root");
      group := OrElse(config.group, "root");
      notify := if TruthyStr(config.notify) then config.notify else None;
    }

    /** `sendNotification(body, log, hasError)`: one call of `Notifier.send` when
        `notify` is truthy, none otherwise. */
    method SendNotification(body: Payload, log: string, hasError: bool) returns (sent: seq<Notice>)
      ensures TruthyStr(notify) ==> sent == [Notice(notify.value, body, log, hasError)]
      ensures !TruthyStr(notify) ==> sent == []
      ensures sent == Notices(Settings(), body, log, hasError)
    {
      if !TruthyStr(notify) {
        return [];
      }
      sent := [Notice(notify.value, body, log, hasError)];
    }

    /** `update(body)`. `chdirOk` says whether `process.chdir(pwd)` succeeds and
        `exec(n)` what the n-th command run gives. */
    method Update(body: JsInput<Payload>, chdirOk: bool, exec: nat -> ExecResult) returns (trace: RunTrace)
      ensures trace == Run(Settings(), body, chdirOk, exec)
    {
      if !ValidBody(body) {
        return RunTrace(false, "", false, [], [], []);
      }
      var post := body.fields;
      if IsTagPush(post) {
        var sent := SendNotification(post, "", false);
        return RunTrace(true, "", false, [], [], sent);
      }
      var log := "";
      var hasError := false;
      var commands: seq<string> := [];
      if !chdirOk {
        log := log + ChdirError(pwd);
        hasError := true;
        assert log == ChdirError(pwd);
      } else {
        commands, log, hasError := RunStages(Settings(), exec);
        RunFromProgress(Settings(), body, exec, commands, log, hasError);
      }
      assert Run(Settings(), body, chdirOk, exec)
             == RunTrace(!hasError, log, hasError, [pwd], commands, Notices(Settings(), post, log, hasError));
      var sent := SendNotification(post, log, hasError);
      trace := RunTrace(!hasError, log, hasError, [pwd], commands, sent);
    }
  }
}
