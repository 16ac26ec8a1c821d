/** The repository object of src/repo.mjs: `createRepo(config)` builds an object with
    the settings as properties and an `update` method; the notification guard is the
    module function `sendNotification(repo, body, log, hasError)`. */
module RepoMjs {
  import opened Js
  import opened Payload
  import opened Pipeline

  class Repo {
    var pwd: Option<string>
    var preCmds: seq<string>
    var postCmds: seq<string>
    var user: string
    var group: string
    var notify: Option<string>

    function Settings(): Pipeline.Settings
      reads this
    {
      Pipeline.Settings(pwd, preCmds, postCmds, user, group, notify)
    }

    /** `createRepo(config)`: the same defaults as the class version. */
    constructor CreateRepo(config: RawConfig)
      ensures pwd == config.pwd
      ensures preCmds == config.pre.GetOr([]) && postCmds == config.post.GetOr([])
      ensures user == OrElse(config.user, "root") && group == OrElse(config.group, "root")
      ensures notify == (if TruthyStr(config.notify) then config.notify else None)
    {
      pwd := config.pwd;
      preCmds := config.pre.GetOr([]);
      postCmds := config.post.GetOr([]);
      user := OrElse(config.user, "root");
      group := OrElse(config.group, "root");
      notify := if TruthyStr(config.notify) then config.notify else None;
    }

    /** `update(body)`: the same stages as the class version, with the notification
        sent through the module function. */
    method Update(body: JsInput<Payload>, chdirOk: bool, exec: nat -> ExecResult) returns (trace: RunTrace)
      ensures trace == Run(Settings(), body, chdirOk, exec)
    {
      if !ValidBody(body) {
        return RunTrace(false, "", false, [], [], []);
      }
      var post := body.fields;
      if IsTagPush(post) {
        var sent := SendNotification(this, post, "", false);
        return RunTrace(true, "", false, [], [], sent);
      }
      var log := "";
      var hasError := false;
      var commands: seq<string> := [];
      if !chdirOk {
        log := log + ChdirError(pwd);
        hasError := true;
        assert log == ChdirError(pwd);
      } else {
        commands, log, hasError := RunStages(Settings(), exec);
        RunFromProgress(Settings(), body, exec, commands, log, hasError);
      }
      assert Run(Settings(), body, chdirOk, exec)
             == RunTrace(!hasError, log, hasError, [pwd], commands, Notices(Settings(), post, log, hasError));
      var sent := SendNotification(this, post, log, hasError);
      trace := RunTrace(!hasError, log, hasError, [pwd], commands, sent);
    }
  }

  /** `sendNotification(repo, body, log, hasError)`: one call of `Notifier.send` when
      `repo.notify` is truthy, none otherwise. */
  method SendNotification(repo: Repo, body: Payload, log: string, hasError: bool) returns (sent: seq<Notice>)
    ensures TruthyStr(repo.notify) ==> sent == [Notice(repo.notify.value, body, log, hasError)]
    ensures !TruthyStr(repo.notify) ==> sent == []
    ensures sent == Notices(repo.Settings(), body, log, hasError)
  {
    if !TruthyStr(repo.notify) {
      return [];
    }
    sent := [Notice(repo.notify.value, body, log, hasError)];
  }
}
