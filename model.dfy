/**
 * The data the handlers work on: the configuration, the pipeline stages that
 * folders of the build bucket stand for, build records, webhook bodies and
 * storage notifications.
 */
module Model {
  import opened Wrappers
  import opened Strings

  /** Which of the two deployments a configuration describes: `Current` is
      google-cloud-functions/index.js, `Legacy` is the older
      src/onGithubPushAddToInboxCloudFunction/index.js. */
  datatype Variant = Current | Legacy

  /** One entry of `gitRefEmojiMatchers`: refs starting with `startsWith` get `emojiShortcode`. */
  datatype EmojiMatcher = EmojiMatcher(startsWith: string, emojiShortcode: string)

  /** `NOTIFICATION_MESSAGE_SETTINGS`; a missing shortcode is `None` (or absent from the map). */
  datatype MessageSettings = MessageSettings(
    messageTemplate: string,
    buildEmojiShortcode: Option<string>,
    gitRefEmojiMatchers: seq<EmojiMatcher>,
    buildStatusEmojiShortcodes: map<string, string>)

  /** The settings the handlers read, fixed once when the process starts. */
  datatype Config = Config(
    variant: Variant,
    bucket: string,
    githubAccessToken: string,
    ciInboxFolder: string,
    ciInProgressFolder: string,
    ciSuccessFolder: string,
    ciFailureFolder: string,
    buildLogFolder: string,
    buildName: string,
    notifyNextTopicOnSuccess: Option<string>,
    messageSettings: Option<MessageSettings>)

  /** JavaScript truthiness of `NOTIFY_NEXT_TOPIC_ON_SUCCESS`: set and not empty. */
  predicate NotifiesNextTopic(cfg: Config) {
    cfg.notifyNextTopicOnSuccess.Some? && cfg.notifyNextTopicOnSuccess.value != ""
  }

  /** The state a build is in, given by the folder its file sits in. */
  datatype Stage = Inbox | InProgress | Success | Failure

  /** The stages whose folders the bucket-triggered handlers react to. */
  predicate Watched(s: Stage) { s != Inbox }

  function FolderOf(cfg: Config, s: Stage): string {
    match s
    case Inbox => cfg.ciInboxFolder
    case InProgress => cfg.ciInProgressFolder
    case Success => cfg.ciSuccessFolder
    case Failure => cfg.ciFailureFolder
  }

  /** `folder + "/"`, the prefix every key of that folder starts with. */
  function FolderPrefix(cfg: Config, s: Stage): string {
    FolderOf(cfg, s) + "/"
  }

  /** The content of a build file, in place of its JSON text. `BuildRecord` is what
      the current ingress writes; `RepoRecord` is what the legacy ingress writes.
      An absent or null `gitRef` / `gitBaseRef` is `None`. */
  datatype Record =
    | BuildRecord(
        githubRepoFullName: string,
        githubPushWebhookTimestampMillis: int,
        headCommitMessage: string,
        headCommiterUsername: Option<string>,
        gitRef: Option<string>,
        gitBaseRef: Option<string>,
        gitShaBefore: string,
        gitSha: string)
    | RepoRecord(githubRepoFullName: string)

  /** An object of the bucket as the handlers read it: a build file, whose text
      `JSON.parse` turns into a record, or any other object (a build log, say),
      on which `JSON.parse` throws. */
  datatype Content = Json(record: Record) | NotJson

  /** `head_commit` of a push: absent (null) for a push that deletes a branch; the
      committer's `username` may be absent too. */
  datatype HeadCommit = HeadCommit(message: string, committerUsername: Option<string>)

  /** The fields of a push webhook body that the ingress handlers read. */
  datatype WebhookBody = WebhookBody(
    after: string,
    before: string,
    ref: Option<string>,
    baseRef: Option<string>,
    repositoryFullName: string,
    headCommit: Option<HeadCommit>)

  /** The `data` of a storage change notification. */
  datatype StorageEvent = StorageEvent(resourceState: string, name: string)

  /** What a handler can throw. */
  datatype Error =
    | NoGitRef
    | NoEmojiMatch(gitRef: string)
    | MissingTemplateValue(key: string)
    | UnknownFolder(fileName: string)
    | ReadFailed(fileName: string)
    | ParseFailed(fileName: string)
    | NoHeadCommit
    | NoMessageSettings

  /** The keys each config.js checks at load time, in the order it checks them. */
  function RequiredKeys(v: Variant): seq<string> {
    var common := ["BUCKET", "GCP_PROJECT", "GITHUB_ACCESS_TOKEN", "CI_INBOX_FOLDER",
                   "CI_IN_PROGRESS_FOLDER", "CI_SUCCESS_FOLDER", "CI_FAILURE_FOLDER"];
    match v
    case Current => common + ["BUILD_LOG_FOLDER", "BUILD_NAME", "CLEAR_SHA_FILE_ON_SUCCESS"]
    case Legacy => common
  }

  /** The keys `checkConfig` accepts. The current loader refuses only undefined or null
      (an absent key); the legacy loader refuses every falsy value, so also "". */
  function ProvidedKeys(v: Variant, env: map<string, string>): set<string> {
    set k | k in env && (v == Legacy ==> env[k] != "")
  }

  /** `config.get(key)` used inside a string: an absent value reads as "undefined". */
  function Setting(env: map<string, string>, key: string): string {
    if key in env then env[key] else "undefined"
  }

  /** Loading a configuration: the first required key that is not provided is
      thrown; otherwise the handlers' settings are taken from `env`. `settings` is
      `NOTIFICATION_MESSAGE_SETTINGS`, which no loader checks: `None` when unset. */
  function LoadConfig(v: Variant, env: map<string, string>, settings: Option<MessageSettings>): (r: Result<Config, string>)
    ensures r.Err? <==> exists i :: 0 <= i < |RequiredKeys(v)| && RequiredKeys(v)[i] !in ProvidedKeys(v, env)
    ensures r.Err? ==> exists i :: 0 <= i < |RequiredKeys(v)| && r.error == RequiredKeys(v)[i]
                                   && r.error !in ProvidedKeys(v, env)
                                   && forall j :: 0 <= j < i ==> RequiredKeys(v)[j] in ProvidedKeys(v, env)
    ensures r.Ok? ==> r.value.variant == v
                      && r.value.bucket == Setting(env, "BUCKET")
                      && r.value.githubAccessToken == Setting(env, "GITHUB_ACCESS_TOKEN")
                      && r.value.ciInboxFolder == Setting(env, "CI_INBOX_FOLDER")
                      && r.value.ciInProgressFolder == Setting(env, "CI_IN_PROGRESS_FOLDER")
                      && r.value.ciSuccessFolder == Setting(env, "CI_SUCCESS_FOLDER")
                      && r.value.ciFailureFolder == Setting(env, "CI_FAILURE_FOLDER")
                      && r.value.buildLogFolder == Setting(env, "BUILD_LOG_FOLDER")
                      && r.value.buildName == Setting(env, "BUILD_NAME")
    ensures r.Ok? ==> (r.value.notifyNextTopicOnSuccess.Some? <==> v == Current && "NOTIFY_NEXT_TOPIC_ON_SUCCESS" in env)
    ensures r.Ok? && r.value.notifyNextTopicOnSuccess.Some? ==>
              r.value.notifyNextTopicOnSuccess.value == env["NOTIFY_NEXT_TOPIC_ON_SUCCESS"]
    ensures r.Ok? ==> r.value.messageSettings == settings
  {
    var keys := RequiredKeys(v);
    var missing := FirstAbsent(keys, ProvidedKeys(v, env));
    if missing >= 0 then Err(keys[missing])
    else
      assert keys[0] in ProvidedKeys(v, env) && keys[2] in ProvidedKeys(v, env) && keys[3] in ProvidedKeys(v, env);
      assert keys[4] in ProvidedKeys(v, env) && keys[5] in ProvidedKeys(v, env) && keys[6] in ProvidedKeys(v, env);
      Ok(Config(
        v,
        env["BUCKET"],
        env["GITHUB_ACCESS_TOKEN"],
        env["CI_INBOX_FOLDER"],
        env["CI_IN_PROGRESS_FOLDER"],
        env["CI_SUCCESS_FOLDER"],
        env["CI_FAILURE_FOLDER"],
        Setting(env, "BUILD_LOG_FOLDER"),
        Setting(env, "BUILD_NAME"),
        if v == Current && "NOTIFY_NEXT_TOPIC_ON_SUCCESS" in env then Some(env["NOTIFY_NEXT_TOPIC_ON_SUCCESS"]) else None,
        settings))
  }

  /** The legacy loader accepts exactly the environments that give each of its seven
      keys a non-empty value; `BUILD_LOG_FOLDER`, which its handler reads, is not
      among them and reads as "undefined" when unset. */
  lemma LegacyConfigNeedsNonEmptyKeys(env: map<string, string>, settings: Option<MessageSettings>)
    ensures LoadConfig(Legacy, env, settings).Ok? <==>
              forall i :: 0 <= i < |RequiredKeys(Legacy)| ==>
                RequiredKeys(Legacy)[i] in env && env[RequiredKeys(Legacy)[i]] != ""
    ensures LoadConfig(Legacy, env, settings).Ok? && "BUILD_LOG_FOLDER" !in env ==>
              LoadConfig(Legacy, env, settings).value.buildLogFolder == "undefined"
  {
  }

  /** An empty value is refused by the legacy loader and accepted by the current one. */
  lemma LoadersDifferOnEmptyValue(env: map<string, string>, settings: Option<MessageSettings>)
    requires "BUCKET" in env && env["BUCKET"] == ""
    ensures LoadConfig(Legacy, env, settings) == Err("BUCKET")
    ensures LoadConfig(Current, env, settings).Err? ==> LoadConfig(Current, env, settings).error != "BUCKET"
  {
    assert RequiredKeys(Legacy)[0] == "BUCKET";
    assert RequiredKeys(Current)[0] == "BUCKET";
  }
}
