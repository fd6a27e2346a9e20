/**
 * The cloud functions as the programs they are: each handler reads the bucket and
 * performs its effects one after another on a `World` that holds the bucket's
 * build files and the record of everything sent out. Each is proved to perform
 * exactly the reaction `Handlers` gives it.
 */
module CloudFunctions {
  import opened Wrappers
  import opened Strings
  import opened Model
  import opened Classifier
  import opened Urls
  import opened Messages
  import opened Requests
  import opened Handlers

  class World {
    /** The settings loaded when the process started. */
    const cfg: Config
    /** The objects of the bucket, by key. */
    var files: map<string, Content>
    /** Every effect performed so far, in order. */
    var log: seq<Effect>

    constructor(cfg: Config, files: map<string, Content>)
      ensures this.cfg == cfg && this.files == files && log == []
    {
      this.cfg := cfg;
      this.files := files;
      log := [];
    }

    /** Performs one effect: the bucket changes as the effect says and the effect is recorded. */
    method Perform(e: Effect)
      modifies this
      ensures files == ApplyEffect(old(files), e)
      ensures log == old(log) + [e]
    {
      files := ApplyEffect(files, e);
      log := log + [e];
    }

    /** `onGithubPushTriggerNewBuild` (current deployment). */
    method OnGithubPushTriggerNewBuild(body: WebhookBody, now: int, publishOk: bool) returns (outcome: Outcome)
      modifies this
      ensures var r := TriggerNewBuildReaction(cfg, body, now, publishOk);
        log == old(log) + r.effects && files == Apply(old(files), r.effects) && outcome == r.outcome
    {
      var gitSha := body.after;
      var gitShaFilePath := cfg.ciInboxFolder + "/" + gitSha;
      if body.headCommit.None? {
        // reading `head_commit.message` of null throws before the file is saved
        return Threw(NoHeadCommit);
      }
      var save := SaveFile(gitShaFilePath, IngressRecord(body, now));
      var publish := Publish(cfg.buildName + "-topic", FileUrl(cfg, gitShaFilePath));
      Perform(save);
      Perform(publish);
      if publishOk {
        var respond := Respond("bucket=" + cfg.bucket + " gitShaFilePath=" + gitShaFilePath);
        Perform(respond);
        ApplyThree(old(files), save, publish, respond);
        assert log == old(log) + [save, publish, respond];
        outcome := Finished;
      } else {
        ApplyTwo(old(files), save, publish);
        assert log == old(log) + [save, publish];
        outcome := Unfinished;
      }
    }

    /** `onGithubPushAddToCiInbox` (legacy deployment). */
    method OnGithubPushAddToCiInbox(body: WebhookBody) returns (outcome: Outcome)
      modifies this
      ensures var r := AddToCiInboxReaction(cfg, body);
        log == old(log) + r.effects && files == Apply(old(files), r.effects) && outcome == r.outcome
    {
      var gitSha := body.after;
      var gitRef := body.ref;
      var gitShaFilePath := cfg.ciInboxFolder + "/" + gitSha;
      var save := SaveFile(gitShaFilePath, RepoRecord(body.repositoryFullName));
      var respond := Respond("bucket=" + cfg.bucket + " gitShaFilePath=" + gitShaFilePath + " gitRef=" + RefText(gitRef));
      Perform(save);
      Perform(respond);
      ApplyTwo(old(files), save, respond);
      assert log == old(log) + [save, respond];
      outcome := Finished;
    }

    /** `updateGitCommitState`: posts the status of stage `s` for the file's commit. */
    method UpdateGitCommitState(rec: Record, gitSha: string, s: Stage, now: int)
      requires Watched(s)
      modifies this
      ensures files == old(files)
      ensures log == old(log) + [PostStatus(CommitStatusUpdate(cfg, rec, gitSha, s, now))]
    {
      Perform(PostStatus(CommitStatusUpdate(cfg, rec, gitSha, s, now)));
    }

    /** `onFolderEventUpdateGithubCommitStatus` of either deployment. */
    method OnFolderEventUpdateGithubCommitStatus(ev: StorageEvent, now: int, publishOk: bool) returns (outcome: Outcome)
      modifies this
      ensures var r := StatusReaction(cfg, ev, old(files), now, publishOk);
        log == old(log) + r.effects && files == Apply(old(files), r.effects) && outcome == r.outcome
    {
      var file := ev;
      var shaTest := cfg.variant == Legacy || IsGitSha(ParseGitShaFromFileName(file.name));
      if !(file.resourceState == "exists" && shaTest) {
        assert !StatusGuard(cfg, ev);
        return Finished;
      }
      if file.name !in files {
        // the read stream's error event has no listener
        return Threw(ReadFailed(file.name));
      }
      if files[file.name].NotJson? {
        return Threw(ParseFailed(file.name));
      }
      var jsonContent := files[file.name].record;
      var stage: Stage;
      if StartsWith(file.name, cfg.ciInProgressFolder + "/") {
        stage := InProgress;
      } else if StartsWith(file.name, cfg.ciSuccessFolder + "/") {
        stage := Success;
      } else if StartsWith(file.name, cfg.ciFailureFolder + "/") {
        stage := Failure;
      } else {
        assert Classify(cfg, file.name).None?;
        if cfg.variant == Current {
          return Threw(UnknownFolder(file.name));
        }
        return Finished;
      }
      assert Classify(cfg, file.name) == Some(stage);
      StatusOfClassifiedFile(cfg, ev, files, now, publishOk, stage);
      outcome := HandleBuildFile(file.name, jsonContent, stage, now, publishOk);
    }

    /** The status handler's work once the file is read and its stage known. */
    method HandleBuildFile(name: string, rec: Record, stage: Stage, now: int, publishOk: bool) returns (outcome: Outcome)
      requires Watched(stage)
      modifies this
      ensures var r := ClassifiedStatusReaction(cfg, name, rec, stage, now, publishOk);
        log == old(log) + r.effects && files == Apply(old(files), r.effects) && outcome == r.outcome
    {
      var gitSha := ParseGitShaFromFileName(name);
      ghost var post := PostStatus(CommitStatusUpdate(cfg, rec, gitSha, stage, now));
      ghost var exit := ExitEffects(cfg, name, stage);
      UpdateGitCommitState(rec, gitSha, stage, now);
      ghost var logAfterPost := log;
      assert logAfterPost == old(log) + [post];
      outcome := FinishBuildFile(name, stage, publishOk);
      assert log == logAfterPost + exit;
      assert log == old(log) + ([post] + exit);
      ApplyPostFirst(old(files), post, exit);
    }

    /** What follows the post: keep the file, hand it on to the next topic, or delete it. */
    method FinishBuildFile(name: string, stage: Stage, publishOk: bool) returns (outcome: Outcome)
      requires Watched(stage)
      modifies this
      ensures log == old(log) + ExitEffects(cfg, name, stage)
      ensures files == Apply(old(files), ExitEffects(cfg, name, stage))
      ensures outcome == ExitOutcome(cfg, stage, publishOk)
    {
      ExitFilesAfter(cfg, name, old(files), stage);
      if stage == InProgress {
        outcome := Finished;
      } else if stage == Success && cfg.variant == Current && NotifiesNextTopic(cfg) {
        Perform(Publish(cfg.notifyNextTopicOnSuccess.value, FileUrl(cfg, name)));
        outcome := if publishOk then Finished else Unfinished;
      } else {
        Perform(DeleteFile(name));
        outcome := Finished;
      }
    }

    /** `onFolderEventSendSlackNotification` (current deployment). */
    method OnFolderEventSendSlackNotification(ev: StorageEvent, now: int) returns (outcome: Outcome)
      modifies this
      ensures var r := SlackReaction(cfg, ev, old(files), now);
        log == old(log) + r.effects && files == Apply(old(files), r.effects) && outcome == r.outcome
    {
      var file := ev;
      if !(file.resourceState == "exists" && IsGitSha(ParseGitShaFromFileName(file.name))) {
        return Finished;
      }
      if file.name !in files {
        return Threw(ReadFailed(file.name));
      }
      if files[file.name].NotJson? {
        return Threw(ParseFailed(file.name));
      }
      var buildFileJsonContent := files[file.name].record;
      var currentBuildState: Stage;
      if StartsWith(file.name, cfg.ciInProgressFolder + "/") {
        currentBuildState := InProgress;
      } else if StartsWith(file.name, cfg.ciSuccessFolder + "/") {
        currentBuildState := Success;
      } else if StartsWith(file.name, cfg.ciFailureFolder + "/") {
        currentBuildState := Failure;
      } else {
        assert Classify(cfg, file.name).None?;
        return Finished;
      }
      assert Classify(cfg, file.name) == Some(currentBuildState);
      SlackOfClassifiedFile(cfg, ev, files, now, currentBuildState);
      outcome := NotifyOf(currentBuildState, buildFileJsonContent, now);
    }

    /** `notifyOf`: builds the message for the stage and sends it. */
    method NotifyOf(currentBuildState: Stage, rec: Record, now: int) returns (outcome: Outcome)
      requires Watched(currentBuildState)
      modifies this
      ensures var r := NotifyReaction(cfg, currentBuildState, rec, now);
        log == old(log) + r.effects && files == Apply(old(files), r.effects) && outcome == r.outcome
    {
      var message := SlackMessage(cfg, currentBuildState, rec, now);
      if message.Err? {
        return Threw(message.error);
      }
      Perform(SendSlack(message.value));
      ApplyOne(old(files), SendSlack(message.value));
      outcome := Finished;
    }
  }
}
