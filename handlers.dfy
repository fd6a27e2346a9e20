/**
 * What each cloud function does with one request or one storage notification,
 * as a pure reaction: the effects it performs, in order, and how it ends. The
 * imperative handlers of `CloudFunctions` are proved to perform exactly these.
 */
module Handlers {
  import opened Wrappers
  import opened Strings
  import opened Model
  import opened Classifier
  import opened Urls
  import opened Messages
  import opened Requests

  /** One externally visible action. `Publish` is the attempt; whether the
      publisher accepted it is an input of the reactions. */
  datatype Effect =
    | SaveFile(key: string, record: Record)
    | DeleteFile(key: string)
    | PostStatus(request: StatusRequest)
    | Publish(topic: string, payload: string)
    | SendSlack(text: string)
    | Respond(body: string)

  /** How a handler ends: it signals completion (the callback or the HTTP
      response), it never does (a publish that failed, a read that never ends),
      or it throws. */
  datatype Outcome = Finished | Unfinished | Threw(error: Error)

  datatype Reaction = Reaction(effects: seq<Effect>, outcome: Outcome)

  /** The bucket after one effect; only saves and deletes change it. A save writes
      a build file, which reads back as the record saved. */
  function ApplyEffect(files: map<string, Content>, e: Effect): map<string, Content> {
    match e
    case SaveFile(key, record) => files[key := Json(record)]
    case DeleteFile(key) => files - {key}
    case _ => files
  }

  /** The bucket after a sequence of effects, applied in order. */
  function Apply(files: map<string, Content>, effects: seq<Effect>): map<string, Content>
    decreases |effects|
  {
    if effects == [] then files
    else Apply(ApplyEffect(files, effects[0]), effects[1..])
  }

  /** Effects other than saves and deletes leave the bucket as it is. */
  lemma ApplyPostFirst(files: map<string, Content>, post: Effect, rest: seq<Effect>)
    requires post.PostStatus?
    ensures Apply(files, [post] + rest) == Apply(files, rest)
  {
    assert ([post] + rest)[1..] == rest;
  }

  lemma ApplyOne(files: map<string, Content>, e: Effect)
    ensures Apply(files, [e]) == ApplyEffect(files, e)
  {
    assert [e][1..] == [];
  }

  lemma ApplyTwo(files: map<string, Content>, e1: Effect, e2: Effect)
    ensures Apply(files, [e1, e2]) == ApplyEffect(ApplyEffect(files, e1), e2)
  {
    assert [e1, e2][1..] == [e2];
    ApplyOne(ApplyEffect(files, e1), e2);
  }

  lemma ApplyThree(files: map<string, Content>, e1: Effect, e2: Effect, e3: Effect)
    ensures Apply(files, [e1, e2, e3]) == ApplyEffect(ApplyEffect(ApplyEffect(files, e1), e2), e3)
  {
    assert [e1, e2, e3][1..] == [e2, e3];
    ApplyTwo(ApplyEffect(files, e1), e2, e3);
  }

  /** The number of status posts among `effects`. */
  function CountPosts(effects: seq<Effect>): nat {
    if effects == [] then 0
    else (if effects[0].PostStatus? then 1 else 0) + CountPosts(effects[1..])
  }

  lemma CountPostsOne(e: Effect)
    ensures CountPosts([e]) == if e.PostStatus? then 1 else 0
  {
    assert [e][1..] == [];
  }

  /** Some effect of `effects` is a publish. */
  predicate AnyPublish(effects: seq<Effect>) {
    effects != [] && (effects[0].Publish? || AnyPublish(effects[1..]))
  }

  lemma AnyPublishCons(e: Effect, rest: seq<Effect>)
    ensures AnyPublish([e] + rest) == (e.Publish? || AnyPublish(rest))
  {
    assert ([e] + rest)[1..] == rest;
  }

  /** `ciInboxFolder + "/" + gitSha`, where both ingress handlers store a push. */
  function InboxKey(cfg: Config, gitSha: string): string {
    cfg.ciInboxFolder + "/" + gitSha
  }

  /** The build file the current ingress writes for a push received at `now`. */
  function IngressRecord(body: WebhookBody, now: int): Record
    requires body.headCommit.Some?
  {
    BuildRecord(body.repositoryFullName, now, body.headCommit.value.message, body.headCommit.value.committerUsername,
                body.ref, body.baseRef, body.before, body.after)
  }

  /** `${gitRef}` of a ref that may be absent. */
  function RefText(ref: Option<string>): string {
    if ref.Some? then ref.value else "undefined"
  }

  /** `onGithubPushTriggerNewBuild`: save the build file in the inbox, publish its
      location to this build's topic, and respond only once the publish succeeded.
      Building the file's contents reads `head_commit.message`, which throws,
      before anything is saved, when the push has no head commit. */
  function TriggerNewBuildReaction(cfg: Config, body: WebhookBody, now: int, publishOk: bool): Reaction {
    if body.headCommit.None? then Reaction([], Threw(NoHeadCommit))
    else
      var gitShaFilePath := InboxKey(cfg, body.after);
      var effects := [SaveFile(gitShaFilePath, IngressRecord(body, now)),
                      Publish(cfg.buildName + "-topic", FileUrl(cfg, gitShaFilePath))];
      if publishOk then
        Reaction(effects + [Respond("bucket=" + cfg.bucket + " gitShaFilePath=" + gitShaFilePath)], Finished)
      else
        Reaction(effects, Unfinished)
  }

  /** `onGithubPushAddToCiInbox` (legacy): save a file holding only the repository
      name in the inbox and respond at once. */
  function AddToCiInboxReaction(cfg: Config, body: WebhookBody): Reaction {
    var gitShaFilePath := InboxKey(cfg, body.after);
    Reaction([SaveFile(gitShaFilePath, RepoRecord(body.repositoryFullName)),
              Respond("bucket=" + cfg.bucket + " gitShaFilePath=" + gitShaFilePath + " gitRef=" + RefText(body.ref))],
             Finished)
  }

  /** The object `name` exists and `JSON.parse` accepts its text. */
  predicate Readable(files: map<string, Content>, name: string) {
    name in files && files[name].Json?
  }

  /** What reading and parsing the object `name` throws: the read stream of a
      missing object emits an error nobody listens to, and `JSON.parse` rejects
      any other object that is not a build file. */
  function ReadError(files: map<string, Content>, name: string): Error {
    if name in files then ParseFailed(name) else ReadFailed(name)
  }

  /** `onFolderEventUpdateGithubCommitStatus` of either deployment, where `files` is
      the bucket when the file is read and `publishOk` says whether a publish to the
      next topic succeeds. */
  function StatusReaction(cfg: Config, ev: StorageEvent, files: map<string, Content>, now: int, publishOk: bool): Reaction {
    if !StatusGuard(cfg, ev) then Reaction([], Finished)
    else if !Readable(files, ev.name) then Reaction([], Threw(ReadError(files, ev.name)))
    else
      match Classify(cfg, ev.name)
      case None =>
        if cfg.variant == Current then Reaction([], Threw(UnknownFolder(ev.name))) else Reaction([], Finished)
      case Some(s) => ClassifiedStatusReaction(cfg, ev.name, files[ev.name].record, s, now, publishOk)
  }

  /** The status handler's work on a readable file `name` in watched stage `s`:
      post the stage's state, then keep the file, hand it on to the next topic, or
      delete it. */
  function ClassifiedStatusReaction(cfg: Config, name: string, rec: Record, s: Stage, now: int, publishOk: bool): Reaction
    requires Watched(s)
  {
    var post := PostStatus(CommitStatusUpdate(cfg, rec, ParseGitShaFromFileName(name), s, now));
    Reaction([post] + ExitEffects(cfg, name, s), ExitOutcome(cfg, s, publishOk))
  }

  /** A handed-on file finishes only when the publish succeeds. */
  function ExitOutcome(cfg: Config, s: Stage, publishOk: bool): Outcome {
    if HandsOn(cfg, s) && !publishOk then Unfinished else Finished
  }

  /** A success file is handed on to the next topic when the current deployment
      has one configured. */
  predicate HandsOn(cfg: Config, s: Stage) {
    s == Success && cfg.variant == Current && NotifiesNextTopic(cfg)
  }

  /** What follows the post: nothing for an in-progress file, a publish of its
      location for a file handed on, a delete otherwise. */
  function ExitEffects(cfg: Config, name: string, s: Stage): seq<Effect>
    requires Watched(s)
  {
    if s == InProgress then []
    else if HandsOn(cfg, s) then [Publish(cfg.notifyNextTopicOnSuccess.value, FileUrl(cfg, name))]
    else [DeleteFile(name)]
  }

  /** `onFolderEventSendSlackNotification` (current deployment only). */
  function SlackReaction(cfg: Config, ev: StorageEvent, files: map<string, Content>, now: int): Reaction {
    if !ShaGuard(ev) then Reaction([], Finished)
    else if !Readable(files, ev.name) then Reaction([], Threw(ReadError(files, ev.name)))
    else
      match Classify(cfg, ev.name)
      case None => Reaction([], Finished)
      case Some(s) => NotifyReaction(cfg, s, files[ev.name].record, now)
  }

  /** `notifyOf`: send the message for stage `s`, or throw what building it throws. */
  function NotifyReaction(cfg: Config, s: Stage, rec: Record, now: int): Reaction
    requires Watched(s)
  {
    match SlackMessage(cfg, s, rec, now)
    case Ok(text) => Reaction([SendSlack(text)], Finished)
    case Err(e) => Reaction([], Threw(e))
  }

  /** Whether the status handler leaves a classified file in place: an in-progress
      file always, a success file only when it is handed on to the next topic. */
  predicate KeepsRecord(cfg: Config, s: Stage) {
    s == InProgress || HandsOn(cfg, s)
  }

  /** The key of the object `buildLogExternalUrl` points to. */
  function BuildLogKey(cfg: Config, gitSha: string): string {
    cfg.buildLogFolder + "/" + gitSha + ".log"
  }

  /** The trigger writes exactly the inbox build file, publishes a payload naming
      it to "<build name>-topic", and responds exactly when the publish succeeded;
      a push without a head commit throws before doing anything. */
  lemma TriggerNewBuildEffects(cfg: Config, body: WebhookBody, now: int, publishOk: bool, files: map<string, Content>)
    ensures var r := TriggerNewBuildReaction(cfg, body, now, publishOk);
      body.headCommit.None? ==> r == Reaction([], Threw(NoHeadCommit))
    ensures var r := TriggerNewBuildReaction(cfg, body, now, publishOk);
      body.headCommit.Some? ==>
      && |r.effects| == (if publishOk then 3 else 2)
      && r.effects[0] == SaveFile(InboxKey(cfg, body.after), IngressRecord(body, now))
      && Apply(files, r.effects) == files[InboxKey(cfg, body.after) := Json(IngressRecord(body, now))]
      && r.effects[1].Publish? && r.effects[1].topic == cfg.buildName + "-topic"
      && GsPathKey(cfg, r.effects[1].payload) == Some(InboxKey(cfg, body.after))
      && (r.outcome == Finished <==> publishOk) && (r.outcome.Unfinished? <==> !publishOk)
      && (publishOk ==> r.effects[2] == Respond("bucket=" + cfg.bucket + " gitShaFilePath=" + InboxKey(cfg, body.after)))
  {
    if body.headCommit.Some? {
      var r := TriggerNewBuildReaction(cfg, body, now, publishOk);
      var e1, e2 := r.effects[0], r.effects[1];
      if publishOk {
        assert r.effects == [e1, e2, r.effects[2]];
        ApplyThree(files, e1, e2, r.effects[2]);
      } else {
        assert r.effects == [e1, e2];
        ApplyTwo(files, e1, e2);
      }
    }
  }

  /** The legacy ingress writes exactly the inbox file with the repository name,
      publishes nothing, and responds at once. */
  lemma AddToCiInboxEffects(cfg: Config, body: WebhookBody, files: map<string, Content>)
    ensures var r := AddToCiInboxReaction(cfg, body);
      && Apply(files, r.effects) == files[InboxKey(cfg, body.after) := Json(RepoRecord(body.repositoryFullName))]
      && r.outcome == Finished
      && |r.effects| == 2 && !AnyPublish(r.effects)
      && r.effects[1] == Respond("bucket=" + cfg.bucket + " gitShaFilePath=" + InboxKey(cfg, body.after)
                                 + " gitRef=" + RefText(body.ref))
  {
    var r := AddToCiInboxReaction(cfg, body);
    ApplyTwo(files, r.effects[0], r.effects[1]);
    assert r.effects == [r.effects[0]] + ([r.effects[1]] + []);
    AnyPublishCons(r.effects[0], [r.effects[1]] + []);
    AnyPublishCons(r.effects[1], []);
  }

  /** A classified, readable file makes the status handler post once, first, with
      the stage's state for the SHA in the file name, the record's repository and
      the build log of that SHA as target. */
  lemma StatusReportsStage(cfg: Config, ev: StorageEvent, files: map<string, Content>, now: int, publishOk: bool, s: Stage)
    requires StatusGuard(cfg, ev) && Readable(files, ev.name) && Classify(cfg, ev.name) == Some(s)
    ensures var r := StatusReaction(cfg, ev, files, now, publishOk);
            var sha := ParseGitShaFromFileName(ev.name);
      && Watched(s) && 1 <= |r.effects| <= 2 && r.effects[0].PostStatus?
      && r.effects[0].request.state == CommitState(s)
      && r.effects[0].request.url == StatusUrl(files[ev.name].record.githubRepoFullName, sha)
      && r.effects[0].request.targetUrl == BuildLogExternalUrl(cfg, sha)
      && CountPosts(r.effects) == 1
  {
    var sha := ParseGitShaFromFileName(ev.name);
    ClassifiedPostsOnce(cfg, ev.name, files[ev.name].record, s, now, publishOk);
    CommitStatusUpdateContents(cfg, files[ev.name].record, sha, s, now);
  }

  lemma ClassifiedPostsOnce(cfg: Config, name: string, rec: Record, s: Stage, now: int, publishOk: bool)
    requires Watched(s)
    ensures var r := ClassifiedStatusReaction(cfg, name, rec, s, now, publishOk);
      && 1 <= |r.effects| <= 2
      && r.effects[0] == PostStatus(CommitStatusUpdate(cfg, rec, ParseGitShaFromFileName(name), s, now))
      && CountPosts(r.effects) == 1
  {
    var post := PostStatus(CommitStatusUpdate(cfg, rec, ParseGitShaFromFileName(name), s, now));
    ExitPostsNothing(cfg, name, s);
    CountPostsCons(post, ExitEffects(cfg, name, s));
  }

  lemma CountPostsCons(e: Effect, rest: seq<Effect>)
    ensures CountPosts([e] + rest) == (if e.PostStatus? then 1 else 0) + CountPosts(rest)
  {
    assert ([e] + rest)[1..] == rest;
  }

  lemma ExitPostsNothing(cfg: Config, name: string, s: Stage)
    requires Watched(s)
    ensures |ExitEffects(cfg, name, s)| <= 1 && CountPosts(ExitEffects(cfg, name, s)) == 0
  {
    var exit := ExitEffects(cfg, name, s);
    if exit != [] {
      CountPostsOne(exit[0]);
      assert exit == [exit[0]];
    }
  }

  /** The status handler posts at most once, and exactly when the notification
      passes the guard and names a readable file in a watched folder. */
  lemma {:induction false} StatusPostsOnlyForWatchedFiles(cfg: Config, ev: StorageEvent, files: map<string, Content>, now: int, publishOk: bool)
    ensures var r := StatusReaction(cfg, ev, files, now, publishOk);
      CountPosts(r.effects) == if StatusGuard(cfg, ev) && Readable(files, ev.name) && Classify(cfg, ev.name).Some? then 1 else 0
  {
    if StatusGuard(cfg, ev) && Readable(files, ev.name) && Classify(cfg, ev.name).Some? {
      StatusReportsStage(cfg, ev, files, now, publishOk, Classify(cfg, ev.name).value);
    }
  }

  /** The status handler deletes the file it was notified of unless it keeps it,
      and touches nothing else in the bucket. */
  lemma StatusFilesAfter(cfg: Config, ev: StorageEvent, files: map<string, Content>, now: int, publishOk: bool)
    ensures var r := StatusReaction(cfg, ev, files, now, publishOk);
            var c := Classify(cfg, ev.name);
      Apply(files, r.effects)
        == if StatusGuard(cfg, ev) && Readable(files, ev.name) && c.Some? && !KeepsRecord(cfg, c.value)
           then files - {ev.name} else files
  {
    var c := Classify(cfg, ev.name);
    if StatusGuard(cfg, ev) && Readable(files, ev.name) && c.Some? {
      ClassifiedFilesAfter(cfg, ev.name, files[ev.name].record, files, c.value, now, publishOk);
    }
  }

  lemma ClassifiedFilesAfter(cfg: Config, name: string, rec: Record, files: map<string, Content>, s: Stage, now: int, publishOk: bool)
    requires Watched(s)
    ensures var r := ClassifiedStatusReaction(cfg, name, rec, s, now, publishOk);
      Apply(files, r.effects) == if KeepsRecord(cfg, s) then files else files - {name}
  {
    var post := PostStatus(CommitStatusUpdate(cfg, rec, ParseGitShaFromFileName(name), s, now));
    assert ClassifiedStatusReaction(cfg, name, rec, s, now, publishOk).effects == [post] + ExitEffects(cfg, name, s);
    ApplyPostFirst(files, post, ExitEffects(cfg, name, s));
    ExitFilesAfter(cfg, name, files, s);
  }

  lemma ExitFilesAfter(cfg: Config, name: string, files: map<string, Content>, s: Stage)
    requires Watched(s)
    ensures Apply(files, ExitEffects(cfg, name, s)) == if KeepsRecord(cfg, s) then files else files - {name}
  {
    var exit := ExitEffects(cfg, name, s);
    if exit != [] {
      ApplyOne(files, exit[0]);
      assert exit == [exit[0]];
    }
  }

  /** A success file in the current deployment with a next topic is published, by
      its `gs://` location, to that topic after the post and stays in the bucket;
      the handler finishes only if the publish succeeds. */
  lemma StatusHandsOnSuccess(cfg: Config, ev: StorageEvent, files: map<string, Content>, now: int, publishOk: bool)
    requires StatusGuard(cfg, ev) && Readable(files, ev.name) && Classify(cfg, ev.name) == Some(Success)
    requires cfg.variant == Current && NotifiesNextTopic(cfg)
    ensures var r := StatusReaction(cfg, ev, files, now, publishOk);
      && |r.effects| == 2 && r.effects[0].PostStatus?
      && r.effects[1] == Publish(cfg.notifyNextTopicOnSuccess.value, FileUrl(cfg, ev.name))
      && GsPathKey(cfg, r.effects[1].payload) == Some(ev.name)
      && Apply(files, r.effects) == files
      && (r.outcome == Finished <==> publishOk)
  {
    var rec := files[ev.name].record;
    ClassifiedPostsOnce(cfg, ev.name, rec, Success, now, publishOk);
    ClassifiedFilesAfter(cfg, ev.name, rec, files, Success, now, publishOk);
    var r := ClassifiedStatusReaction(cfg, ev.name, rec, Success, now, publishOk);
    assert r.effects[1] == ExitEffects(cfg, ev.name, Success)[0];
  }

  /** For a readable file in a watched folder, the status handler's reaction is the
      classified one for the parsed record. */
  lemma StatusOfClassifiedFile(cfg: Config, ev: StorageEvent, files: map<string, Content>, now: int, publishOk: bool, s: Stage)
    requires StatusGuard(cfg, ev) && Readable(files, ev.name) && Classify(cfg, ev.name) == Some(s)
    ensures Watched(s)
    ensures StatusReaction(cfg, ev, files, now, publishOk)
         == ClassifiedStatusReaction(cfg, ev.name, files[ev.name].record, s, now, publishOk)
  {
  }

  /** An exit action publishes exactly when the file is handed on. */
  lemma ExitPublishes(cfg: Config, name: string, s: Stage)
    requires Watched(s)
    ensures AnyPublish(ExitEffects(cfg, name, s)) <==> HandsOn(cfg, s)
  {
    var exit := ExitEffects(cfg, name, s);
    if exit != [] {
      AnyPublishCons(exit[0], []);
      assert exit == [exit[0]] + [];
    }
  }

  /** The status handler publishes exactly when it hands a success file on. */
  lemma StatusPublishesOnlyHandingOn(cfg: Config, ev: StorageEvent, files: map<string, Content>, now: int, publishOk: bool)
    ensures var r := StatusReaction(cfg, ev, files, now, publishOk);
      AnyPublish(r.effects) <==> StatusGuard(cfg, ev) && Readable(files, ev.name) && Classify(cfg, ev.name) == Some(Success)
                                 && HandsOn(cfg, Success)
  {
    var c := Classify(cfg, ev.name);
    if StatusGuard(cfg, ev) && Readable(files, ev.name) && c.Some? {
      var s := c.value;
      StatusOfClassifiedFile(cfg, ev, files, now, publishOk, s);
      var post := PostStatus(CommitStatusUpdate(cfg, files[ev.name].record, ParseGitShaFromFileName(ev.name), s, now));
      var exit := ExitEffects(cfg, ev.name, s);
      assert StatusReaction(cfg, ev, files, now, publishOk).effects == [post] + exit;
      AnyPublishCons(post, exit);
      ExitPublishes(cfg, ev.name, s);
      assert HandsOn(cfg, s) <==> s == Success && HandsOn(cfg, Success);
    } else {
      assert StatusReaction(cfg, ev, files, now, publishOk).effects == [];
    }
  }

  /** The legacy status handler never publishes, and throws only what reading and
      parsing the notified object throws. */
  lemma LegacyStatusNeverChains(cfg: Config, ev: StorageEvent, files: map<string, Content>, now: int, publishOk: bool)
    requires cfg.variant == Legacy
    ensures var r := StatusReaction(cfg, ev, files, now, publishOk);
      && !AnyPublish(r.effects)
      && (r.outcome.Threw? <==> StatusGuard(cfg, ev) && !Readable(files, ev.name))
      && (r.outcome.Threw? ==> r.outcome.error == ReadError(files, ev.name))
  {
    StatusPublishesOnlyHandingOn(cfg, ev, files, now, publishOk);
  }

  /** A file outside the watched folders makes the current status handler throw
      and the legacy one finish quietly; neither does anything else. */
  lemma StatusUnknownFolder(cfg: Config, ev: StorageEvent, files: map<string, Content>, now: int, publishOk: bool)
    requires StatusGuard(cfg, ev) && Readable(files, ev.name) && Classify(cfg, ev.name).None?
    ensures StatusReaction(cfg, ev, files, now, publishOk)
         == if cfg.variant == Current then Reaction([], Threw(UnknownFolder(ev.name))) else Reaction([], Finished)
  {
  }

  /** How the status handler ends. It throws when the object named cannot be read
      or parsed, and, in the current deployment only, for a build file outside the
      watched folders; it is left unfinished exactly when a publish to the next
      topic fails. */
  lemma StatusOutcome(cfg: Config, ev: StorageEvent, files: map<string, Content>, now: int, publishOk: bool)
    ensures var r := StatusReaction(cfg, ev, files, now, publishOk);
            var c := Classify(cfg, ev.name);
      && (r.outcome.Threw? <==>
            StatusGuard(cfg, ev) && (!Readable(files, ev.name) || (cfg.variant == Current && c.None?)))
      && (r.outcome.Threw? && !Readable(files, ev.name) ==> r.outcome.error == ReadError(files, ev.name))
      && (r.outcome.Unfinished? <==>
            StatusGuard(cfg, ev) && Readable(files, ev.name) && c == Some(Success) && HandsOn(cfg, Success) && !publishOk)
  {
  }

  /** What reading the notified object throws: `ReadFailed` for a missing object,
      `ParseFailed` for one that is not a build file. */
  lemma ReadErrorNames(files: map<string, Content>, name: string)
    requires !Readable(files, name)
    ensures ReadError(files, name) == ReadFailed(name) <==> name !in files
    ensures ReadError(files, name) == ParseFailed(name) <==> name in files && files[name].NotJson?
  {
  }

  /** The chat handler never changes the bucket and sends at most one message, the
      one built for the file's stage. It throws when the object cannot be read or
      parsed, or the message cannot be built, and finishes in every other case,
      never waiting. */
  lemma SlackEffects(cfg: Config, ev: StorageEvent, files: map<string, Content>, now: int)
    ensures var r := SlackReaction(cfg, ev, files, now);
      && Apply(files, r.effects) == files
      && !r.outcome.Unfinished?
      && (r.effects == [] || (|r.effects| == 1 && r.effects[0].SendSlack?))
      && (r.outcome.Threw? <==>
            ShaGuard(ev) && (!Readable(files, ev.name) || (Classify(cfg, ev.name).Some?
                              && SlackMessage(cfg, Classify(cfg, ev.name).value, files[ev.name].record, now).Err?)))
      && (r.effects != [] <==> ShaGuard(ev) && Readable(files, ev.name) && Classify(cfg, ev.name).Some?
                                && SlackMessage(cfg, Classify(cfg, ev.name).value, files[ev.name].record, now).Ok?)
      && (r.effects != [] ==>
            r.effects[0].text == SlackMessage(cfg, Classify(cfg, ev.name).value, files[ev.name].record, now).value)
  {
    if ShaGuard(ev) && Readable(files, ev.name) && Classify(cfg, ev.name).Some? {
      NotifyEffects(cfg, Classify(cfg, ev.name).value, files[ev.name].record, now, files);
    }
  }

  /** For a readable file in a watched folder, the chat reaction is the notification
      of the file's stage with the parsed record. */
  lemma SlackOfClassifiedFile(cfg: Config, ev: StorageEvent, files: map<string, Content>, now: int, s: Stage)
    requires ShaGuard(ev) && Readable(files, ev.name) && Classify(cfg, ev.name) == Some(s)
    ensures Watched(s)
    ensures SlackReaction(cfg, ev, files, now) == NotifyReaction(cfg, s, files[ev.name].record, now)
  {
  }

  /** Notifying a stage sends the message built for it and finishes, or sends
      nothing and throws what building it throws; the bucket is left as it is. */
  lemma NotifyEffects(cfg: Config, s: Stage, rec: Record, now: int, files: map<string, Content>)
    requires Watched(s)
    ensures var r := NotifyReaction(cfg, s, rec, now);
            var m := SlackMessage(cfg, s, rec, now);
      && Apply(files, r.effects) == files
      && (m.Ok? ==> r.effects == [SendSlack(m.value)] && r.outcome == Finished)
      && (m.Err? ==> r.effects == [] && r.outcome == Threw(m.error))
  {
    var r := NotifyReaction(cfg, s, rec, now);
    if r.effects != [] {
      ApplyOne(files, r.effects[0]);
    }
  }

  /** A file arriving in the inbox, under folders none of which is a prefix of
      another, makes the current status handler throw, while the legacy status
      handler and the chat handler leave it alone. */
  lemma InboxFileEvent(cfg: Config, sha: string, files: map<string, Content>, now: int, publishOk: bool)
    requires FoldersIndependent(cfg) && IsGitSha(sha) && Readable(files, InboxKey(cfg, sha))
    ensures var ev := StorageEvent("exists", InboxKey(cfg, sha));
      && StatusReaction(cfg, ev, files, now, publishOk)
           == (if cfg.variant == Current then Reaction([], Threw(UnknownFolder(InboxKey(cfg, sha))))
               else Reaction([], Finished))
      && SlackReaction(cfg, ev, files, now) == Reaction([], Finished)
  {
    GitShaHasNoSlash(sha);
    StageKeyClassified(cfg, Inbox, sha);
    ParseGitShaOfStageKey(cfg, Inbox, sha);
    assert InboxKey(cfg, sha) == FolderPrefix(cfg, Inbox) + sha;
  }

  /** An uploaded build log, `<log folder>/<sha>.log`, lies in the same bucket, at
      the key `buildLogExternalUrl` points to. The current handlers skip it, since
      its last path segment is no SHA; the legacy status handler, which has no SHA
      test, reads it and throws because it is not a build file. */
  lemma BuildLogUploadEvent(cfg: Config, sha: string, files: map<string, Content>, now: int, publishOk: bool)
    requires IsGitSha(sha) && BuildLogKey(cfg, sha) in files && files[BuildLogKey(cfg, sha)].NotJson?
    ensures BuildLogExternalUrl(cfg, sha) == "https://storage.googleapis.com/" + cfg.bucket + "/" + BuildLogKey(cfg, sha)
    ensures var ev := StorageEvent("exists", BuildLogKey(cfg, sha));
      && StatusReaction(cfg, ev, files, now, publishOk)
           == (if cfg.variant == Current then Reaction([], Finished)
               else Reaction([], Threw(ParseFailed(BuildLogKey(cfg, sha)))))
      && SlackReaction(cfg, ev, files, now) == Reaction([], Finished)
  {
    var key := BuildLogKey(cfg, sha);
    BuildLogKeyNamesNoSha(cfg, sha);
    var ev := StorageEvent("exists", key);
    assert !ShaGuard(ev);
    assert !Readable(files, key);
    assert ReadError(files, key) == ParseFailed(key);
  }

  /** The last segment of a build log's key is `sha + ".log"`, never a SHA. */
  lemma BuildLogKeyNamesNoSha(cfg: Config, sha: string)
    requires IsGitSha(sha)
    ensures ParseGitShaFromFileName(BuildLogKey(cfg, sha)) == sha + ".log"
    ensures !IsGitSha(sha + ".log")
  {
    var name := sha + ".log";
    GitShaHasNoSlash(sha);
    assert NoSlash(name) by {
      forall i | 0 <= i < |name| ensures name[i] != '/' {
        if i < |sha| { assert name[i] == sha[i]; }
      }
    }
    assert BuildLogKey(cfg, sha) == cfg.buildLogFolder + "/" + name;
    ParseGitShaAfterSlash(cfg.buildLogFolder, name);
  }

  /** A build file `folder + "/" + sha` in a watched folder is reported, under
      independent folders, as that folder's stage for that very SHA, by the status
      post and by the chat message built for the same stage. */
  lemma {:induction false} StageFileReported(cfg: Config, s: Stage, sha: string, files: map<string, Content>, now: int, publishOk: bool)
    requires FoldersIndependent(cfg) && IsGitSha(sha) && Watched(s) && Readable(files, FolderPrefix(cfg, s) + sha)
    ensures var key := FolderPrefix(cfg, s) + sha;
            var ev := StorageEvent("exists", key);
            var r := StatusReaction(cfg, ev, files, now, publishOk);
      && |r.effects| >= 1
      && r.effects[0] == PostStatus(CommitStatusUpdate(cfg, files[key].record, sha, s, now))
      && r.effects[0].request.url == StatusUrl(files[key].record.githubRepoFullName, sha)
      && r.effects[0].request.state == CommitState(s)
      && SlackReaction(cfg, ev, files, now)
           == match SlackMessage(cfg, s, files[key].record, now)
              case Ok(text) => Reaction([SendSlack(text)], Finished)
              case Err(e) => Reaction([], Threw(e))
  {
    var key := FolderPrefix(cfg, s) + sha;
    GitShaHasNoSlash(sha);
    StageKeyClassified(cfg, s, sha);
    ParseGitShaOfStageKey(cfg, s, sha);
    var ev := StorageEvent("exists", key);
    assert ShaGuard(ev) && StatusGuard(cfg, ev);
    ClassifiedPostsOnce(cfg, key, files[key].record, s, now, publishOk);
    CommitStatusUpdateContents(cfg, files[key].record, sha, s, now);
  }

  /** The build file the trigger wrote, once moved to a watched folder, yields a
      status post for the pushed commit in the pushed repository. */
  lemma IngressedPushReported(cfg: Config, body: WebhookBody, pushedAt: int, s: Stage,
                              files: map<string, Content>, now: int, publishOk: bool)
    requires FoldersIndependent(cfg) && IsGitSha(body.after) && Watched(s) && body.headCommit.Some?
    requires FolderPrefix(cfg, s) + body.after in files
    requires files[FolderPrefix(cfg, s) + body.after] == Json(IngressRecord(body, pushedAt))
    ensures var r := StatusReaction(cfg, StorageEvent("exists", FolderPrefix(cfg, s) + body.after), files, now, publishOk);
      && |r.effects| >= 1 && r.effects[0].PostStatus?
      && r.effects[0].request.url == StatusUrl(body.repositoryFullName, body.after)
      && r.effects[0].request.targetUrl == BuildLogExternalUrl(cfg, body.after)
  {
    StageFileReported(cfg, s, body.after, files, now, publishOk);
    CommitStatusUpdateContents(cfg, IngressRecord(body, pushedAt), body.after, s, now);
  }
}
