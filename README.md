# quick-ci handlers, modelled in Dafny

quick-ci is a small CI orchestration layer on Google Cloud Functions. A build is a
file in a storage bucket, named after the commit SHA, and the folder it sits in
(inbox, in-progress, success, failure) is the build's state. Several handlers act
on the bucket:

- **Push ingress** (`onGithubPushTriggerNewBuild`). It handles a GitHub push
  webhook. It writes a build record at `<inbox>/<sha>`, publishes the record's
  `gs://` location to `<build name>-topic`, and responds once the publish
  succeeds.
- **Commit-status handler** (`onFolderEventUpdateGithubCommitStatus`). It runs on
  every storage change notification. It filters out notifications that are not
  about an existing file named after a 40-digit hexadecimal SHA. It reads the
  record and classifies the key by folder (in-progress, success, failure, in that
  order). It posts the matching GitHub commit state. Then it takes the stage's
  single exit action:
  - keep the file;
  - delete it;
  - or, for success with a next topic configured, publish the file's location to
    that topic.

  A key outside the three watched folders is thrown as an error.
- **Chat-notification handler** (`onFolderEventSendSlackNotification`). It has the
  same guard and classification. It builds a value map from the record and fills
  the message template by strict `{{key}}` interpolation.
- **The older deployment** (`src/onGithubPushAddToInboxCloudFunction`). It is
  modelled as a second configuration (`Variant.Legacy`) of the same table:
  - its ingress stores only the repository name and publishes nothing;
  - its status handler has no SHA test and never chains. It ignores readable
    build files in unknown folders, and throws on any object that is missing or
    is not JSON, such as each build log;
  - its status description is the fixed text "this is the description".

## Project structure

Each module is one file:

- `wrappers.dfy`: `Option` and `Result`.
- `strings.dfy`: `lastIndexOf` and `indexOf`, first-occurrence `replace`, and
  integer-to-decimal conversion with its round trip.
- `model.dfy`: the configuration, stages, build records, webhook bodies, storage
  notifications and errors, plus configuration loading.
- `classifier.dfy`: the SHA taken from a file name, the notification guard, and
  the folder classifier.
- `template.dfy`: `interpolate`.
- `urls.dfy`: the storage, build-log and GitHub URLs.
- `messages.dfy`: the text helpers and the chat value map and message.
- `requests.dfy`: the commit-status request.
- `handlers.dfy`: each handler as a pure *reaction*, meaning the list of effects it
  performs plus how it ends. Also here are the bucket after those effects and the
  lemmas for the transition table.
- `cloudfunctions.dfy`: `class World`, holding the bucket (`files`) and an
  append-only effect log. Its handler methods follow the source's if-chains step
  by step and are proved against the reactions.

Inputs the handlers get from outside become parameters:

- the clock is `now`;
- the outcome of a Pub/Sub publish is `publishOk`;
- the configuration is an immutable `Config`.

Calls to GitHub, Pub/Sub and the chat webhook are recorded as effects. Their
answers are never inspected beyond the publish result.

## Model

The functions that compute each handler's behaviour have no rows of their own.
Each is covered by the lemma rows about it:

- `Template.Interpolate` (google-cloud-functions/index.js:232-241): the `Template.*`
  rows.
- `Handlers.StatusReaction` (google-cloud-functions/index.js:162-213;
  src/onGithubPushAddToInboxCloudFunction/index.js:86-118): `StatusReportsStage`
  through `StatusOutcome`, `InboxFileEvent`, `BuildLogUploadEvent` and
  `StageFileReported`.
- `Handlers.SlackReaction` (google-cloud-functions/index.js:337-366): `SlackEffects`
  and `NotifyEffects`.
- `Handlers.TriggerNewBuildReaction` (google-cloud-functions/index.js:77-97):
  `TriggerNewBuildEffects` and `IngressedPushReported`.
- `Handlers.AddToCiInboxReaction`
  (src/onGithubPushAddToInboxCloudFunction/index.js:28-38): `AddToCiInboxEffects`.
- `Messages.SlackValueMap` and `Messages.SlackMessage`
  (google-cloud-functions/index.js:311-329): the `SlackValueMap*` rows and
  `SlackMessageOutcome`.
- `Requests.HttpPostGitShaStatus` (google-cloud-functions/index.js:109-127):
  `HttpPostGitShaStatusContents` and `DetailUrlIgnored`.
- `Messages.NiceGitRef` (google-cloud-functions/index.js:275-277): the
  `NiceGitRefOf*` rows.
- `Messages.SecondsSinceReferenceTime` (google-cloud-functions/index.js:152-154):
  `RoundedSeconds`, `SecondsSinceShowsNearestSecond` and `SecondsSinceExample`.

| member | source | states |
|---|---|---|
| Strings.LastIndexOf | google-cloud-functions/index.js:135 | the position of the last occurrence of the character, or -1; no later character matches |
| Strings.IndexOf | google-cloud-functions/index.js:276 | the leftmost occurrence of the pattern, and -1 exactly when the pattern does not occur |
| Strings.ReplaceFirst | google-cloud-functions/index.js:276 | `replace` with a string pattern replaces only the leftmost occurrence; a string without the pattern is returned unchanged |
| Strings.ReplaceAtStart | google-cloud-functions/index.js:276 | a string that starts with the pattern loses exactly that prefix to the replacement |
| Strings.FirstAbsent | google-cloud-functions/config.js:13-22 | the index of the first key, in checking order, that is not present, or -1 when all are present |
| Strings.NatToString | google-cloud-functions/index.js:153 | decimal digits only, at least one, with a leading zero only for 0 |
| Strings.NatToStringRoundTrip | google-cloud-functions/index.js:153 | reading the digits back gives the number |
| Strings.IntToString | google-cloud-functions/index.js:153 | a minus sign exactly for negative numbers, followed by the digits of the magnitude |
| Model.LoadConfig | google-cloud-functions/config.js:13-28 | fails exactly when a required key is not provided, naming the first one in checking order; otherwise the settings are the configuration store's values, the next topic is the store's value when set (current deployment only), and the message settings are the ones given |
| Model.LegacyConfigNeedsNonEmptyKeys | src/onGithubPushAddToInboxCloudFunction/config.js:21-33 | the legacy loader accepts exactly when each of its seven keys has a non-empty value; an unset `BUILD_LOG_FOLDER` then reads as "undefined" |
| Model.LoadersDifferOnEmptyValue | src/onGithubPushAddToInboxCloudFunction/config.js:29-33 | an empty `BUCKET` is refused by the legacy loader, naming `BUCKET`, and is not what the current loader refuses |
| Classifier.ParseGitShaFromFileName | google-cloud-functions/index.js:134-136 | the longest suffix of the name with no "/", preceded by "/" unless it is the whole name |
| Classifier.Classify | google-cloud-functions/index.js:191-208 | the first watched stage, in the order in-progress, success, failure, whose `folder + "/"` the key starts with; none exactly when no watched prefix matches, including for inbox keys |
| Classifier.ClassifyOrderIrrelevant | google-cloud-functions/index.js:191-202 | with no folder prefix a prefix of another, a key is classified as a stage exactly when it starts with that stage's prefix |
| Classifier.StageKeyClassified | google-cloud-functions/index.js:191-208 | `folder + "/" + sha` is classified as that folder's stage, and an inbox key as none |
| Classifier.GitShaHasNoSlash | google-cloud-functions/index.js:166 | a name passing the 40-hex-digit test contains no "/" |
| Classifier.ParseGitShaAfterSlash | google-cloud-functions/index.js:134-136 | the SHA parsed from `dir + "/" + x`, for `x` without "/", is `x` |
| Classifier.ParseGitShaOfStageKey | google-cloud-functions/index.js:171 | the SHA parsed from `folder + "/" + sha` is `sha` |
| Template.KeyLength | google-cloud-functions/index.js:233 | the lazy `(.+?)` takes the shortest non-empty key without line terminators that is followed by "}}" |
| Template.InterpolateFailsOnFirstMissingKey | google-cloud-functions/index.js:232-241 | interpolation fails exactly when some placeholder's key has no value, and the error is the first such key in template order |
| Template.InterpolateEcho | google-cloud-functions/index.js:233-239 | text outside placeholders is kept, and each placeholder is replaced as a whole: mapping every key to its own placeholder gives the template back |
| Template.NoPlaceholdersUnchanged | google-cloud-functions/index.js:233 | a template without placeholders comes back unchanged, whatever the value map |
| Template.NoPlaceholdersUnchangedIfNoBraces | google-cloud-functions/index.js:233 | text containing no "{" is its own interpolation |
| Template.InterpolatePlaceholder | google-cloud-functions/index.js:233-239 | for a plain key (non-empty, with no "}" and no line terminator), a leading `{{key}}` becomes the key's value, inserted as it is, followed by the interpolation of the rest |
| Template.InterpolateLiteralChar | google-cloud-functions/index.js:233 | a character other than "{" is copied to the output |
| Template.InterpolateLiteralPrefix | google-cloud-functions/index.js:233 | a run of text without "{" is copied to the output before the rest is interpolated |
| Template.InterpolateExample | google-cloud-functions/index.js:228-231 | 'a {{color}} cat' with color 'red' gives 'a red cat' |
| Template.InterpolateDoesNotRescan | google-cloud-functions/index.js:233-239 | an inserted value that looks like a placeholder is not expanded again |
| Urls.FileUrl | google-cloud-functions/index.js:59-61 | the payload is `gs://<bucket>/` followed by the key, and the key can be recovered from it |
| Urls.FileUrlInjective | google-cloud-functions/index.js:59-61 | different keys give different payloads |
| Urls.BuildLogExternalUrl | google-cloud-functions/index.js:99-101 | the public storage URL of `<log folder>/<sha>.log` in the bucket |
| Urls.BuildLogUrlInjective | google-cloud-functions/index.js:99-101 | different SHAs give different log URLs |
| Urls.StatusUrl | google-cloud-functions/index.js:120 | the GitHub statuses endpoint of the repository, ending in the SHA |
| Urls.GithubCompareUrl | google-cloud-functions/index.js:249-251 | the GitHub compare page `<before>...<sha>` of the repository |
| Messages.RoundedSeconds | google-cloud-functions/index.js:152-154 | the whole number of seconds nearest the elapsed milliseconds, with halves rounded up |
| Messages.SecondsSinceShowsNearestSecond | google-cloud-functions/index.js:152-154 | the text is the decimal digits of the nearest whole second, followed by "s" |
| Messages.SecondsSinceExample | google-cloud-functions/index.js:284-286 | 4500 ms elapsed gives "5s" |
| Messages.FlattenNewlines | google-cloud-functions/index.js:301 | every "\n" becomes a space and every other character is kept |
| Messages.CommitMessageTruncated | google-cloud-functions/index.js:300-309 | no newline and at most 31 characters; a message of up to 30 characters is only flattened; a longer one keeps its first 28 flattened characters followed by "..." |
| Messages.CommitMessageTruncatedIdempotent | google-cloud-functions/index.js:300-309 | truncating a truncated message changes nothing |
| Messages.NiceGitRefOfBranch | google-cloud-functions/index.js:275-277 | "refs/heads/" + branch gives the branch name |
| Messages.NiceGitRefOfTag | google-cloud-functions/index.js:275-277 | "refs/tags/" + tag gives the tag name |
| Messages.NiceGitRefOfPlainRef | google-cloud-functions/index.js:275-277 | a ref containing neither prefix is kept as it is |
| Messages.NiceGitRefTruncated | google-cloud-functions/index.js:279-282 | the prefix of the nice ref of length min(its length, 31) |
| Messages.DetermineGitRef | google-cloud-functions/index.js:265-273 | `gitRef` when it is set, else `gitBaseRef`; the error exactly when both are unset |
| Messages.MatchingMatchers | google-cloud-functions/index.js:289-291 | the filter keeps every matcher whose `startsWith` prefixes the ref and no other, is empty exactly when none does, and starts with the first one that does |
| Messages.MatchingMatchersSnoc | google-cloud-functions/index.js:289-291 | the filter keeps list order: appending a matcher appends it to the result exactly when it matches |
| Messages.DetermineEmojiForGitRef | google-cloud-functions/index.js:288-298 | the shortcode of the first matcher in list order that prefixes the ref; the error, naming the ref, exactly when none does |
| Messages.ShortGitSha | google-cloud-functions/index.js:261-263 | the first min(7, length) characters of the SHA |
| Messages.SlackStateName | google-cloud-functions/index.js:243-247 | in-progress is named "inProgress", success "success" and failure "failure", each exactly for that stage |
| Messages.OptionalValues | google-cloud-functions/index.js:316-325 | the two shortcode keys are present exactly when the settings define them, and the committer key exactly when the record has a username, with those values; no other key is present |
| Messages.SlackValueMapFails | google-cloud-functions/index.js:314-317 | building the value map fails exactly when no ref is set or no emoji matcher matches it, with that error |
| Messages.SlackValueMapEntries | google-cloud-functions/index.js:314-327 | a built value map has exactly the eight fixed keys plus the optional keys that are defined, so a template naming any other key fails; it holds the short SHA, the timing, the truncated commit message, the build-log URL and the diff-against-master URL of the record; its shortcode keys are present exactly when configured and its committer key exactly when the record has one |
| Messages.SlackValueMapRefEntries | google-cloud-functions/index.js:314-325 | a built value map holds the emoji of the chosen ref, the truncated ref, the compare page, the committer when the record has one, and the configured build and state shortcodes |
| Messages.SlackMessageOutcome | google-cloud-functions/index.js:311-328 | the message fails when no message settings are configured, then with the value-map error, and otherwise exactly when a placeholder of the template has no value, which it names; a built message is the interpolated template |
| Requests.CommitState | google-cloud-functions/index.js:28-30 | in-progress posts "pending", success posts "success" and failure posts "failure", each exactly for that stage |
| Requests.CommitStateInjective | google-cloud-functions/index.js:28-30 | different stages post different states |
| Requests.HttpPostGitShaStatusContents | google-cloud-functions/index.js:109-127 | the request goes to the statuses URL of the SHA, with the state, the build log of the SHA as target, the description followed by " [RAWCI]", and the context "raw-ci/<build name>" in the current deployment only |
| Requests.DetailUrlIgnored | google-cloud-functions/index.js:109-127 | the `detailUrl` argument does not change the request |
| Requests.CommitStatusUpdateContents | google-cloud-functions/index.js:173-181 | the post for a stage goes to the statuses URL of the record's repository and the SHA of the file name, with the stage's state and the build log as target; the current post has the context "raw-ci/<build name>" and the description "<timing text> from initial receipt to '<state>' [RAWCI]", where the timing text is the elapsed seconds since the push, such as "5s"; the legacy post has no context and the description "this is the description [RAWCI]" |
| Handlers.TriggerNewBuildEffects | google-cloud-functions/index.js:77-97 | a push without a head commit throws before any effect; otherwise the ingress first saves the inbox file with the webhook's fields and the receipt time, and that is its only write; it then publishes the file's `gs://` location to "<build name>-topic"; it has three effects if the publish succeeds and two if not, so it responds "bucket=<bucket> gitShaFilePath=<key>" and finishes only when the publish succeeds |
| Handlers.AddToCiInboxEffects | src/onGithubPushAddToInboxCloudFunction/index.js:28-38 | the legacy ingress writes exactly the inbox file with the repository name, publishes nothing, performs exactly the write and the response, responds with the bucket, the key and the ref, and finishes |
| Handlers.StatusReportsStage | google-cloud-functions/index.js:166-205 | a guarded, readable, classified file first gets one post with the stage's state, for the SHA of the file name and the record's repository, with the build log as target |
| Handlers.ClassifiedPostsOnce | google-cloud-functions/index.js:191-205 | a classified file is posted exactly once, before its exit action |
| Handlers.ExitPostsNothing | google-cloud-functions/index.js:196-205 | each stage's exit action is at most one effect and is never a post |
| Handlers.StatusPostsOnlyForWatchedFiles | google-cloud-functions/index.js:162-213 | the status handler posts once exactly when the notification passes the guard and names a readable file in a watched folder, and never otherwise |
| Handlers.StatusFilesAfter | google-cloud-functions/index.js:162-213 | the bucket afterwards lacks exactly the notified file when its stage does not keep it (success without a next topic, failure, or any legacy success), and is otherwise unchanged |
| Handlers.ClassifiedFilesAfter | google-cloud-functions/index.js:191-205 | a classified file is deleted or kept according to its stage, and nothing else changes |
| Handlers.ExitFilesAfter | google-cloud-functions/index.js:196-205 | an exit action deletes the file exactly when the stage does not keep it |
| Handlers.StatusHandsOnSuccess | google-cloud-functions/index.js:194-201 | with a next topic, a success file is posted, then its `gs://` location is published to that topic; it stays in the bucket, and the handler finishes exactly when the publish succeeds |
| Handlers.StatusPublishesOnlyHandingOn | google-cloud-functions/index.js:191-208 | the status handler publishes exactly when it hands a readable success file on to a configured next topic |
| Handlers.ExitPublishes | google-cloud-functions/index.js:196-201 | a stage's exit action publishes exactly when the stage hands the file on |
| Handlers.LegacyStatusNeverChains | src/onGithubPushAddToInboxCloudFunction/index.js:86-118 | the legacy status handler never publishes; it throws exactly when an existing notified object is missing or is not JSON, with the matching read or parse error |
| Handlers.StatusUnknownFolder | google-cloud-functions/index.js:206-208 | a readable file outside the watched folders makes the current handler throw naming the file and the legacy one finish; neither has any effect |
| Handlers.StatusOutcome | google-cloud-functions/index.js:162-213 | the handler throws exactly when a guarded file is missing or not JSON (with that error) or, in the current deployment, lies in an unknown folder; it stays unfinished exactly when a hand-on publish fails |
| Handlers.ReadErrorNames | google-cloud-functions/index.js:138-146 | an unreadable object gives the read error exactly when it is missing and the parse error exactly when it exists but is not JSON |
| Handlers.SlackEffects | google-cloud-functions/index.js:337-366 | the chat handler never changes the bucket and never stays unfinished; it sends at most one message, exactly when the message for a guarded, readable, classified file builds, and that message is the built one; it throws exactly when a guarded file is missing or not JSON, or its message cannot be built |
| Handlers.NotifyEffects | google-cloud-functions/index.js:311-330 | a message that builds is sent, alone, and the handler finishes; a message that fails sends nothing and throws the building error; the bucket never changes |
| Handlers.InboxFileEvent | google-cloud-functions/index.js:191-208 | a readable inbox file makes the current status handler throw; the legacy status handler and the chat handler finish without effects |
| Handlers.BuildLogUploadEvent | src/onGithubPushAddToInboxCloudFunction/index.js:86-92 | an uploaded build log `<log folder>/<sha>.log`, the object the log URL points at, is ignored by the current handlers; the legacy status handler throws its parse error |
| Handlers.StageFileReported | google-cloud-functions/index.js:162-213 | `folder + "/" + sha` is posted with its stage's state for that SHA, and the chat message is the one built for the same stage |
| Handlers.IngressedPushReported | google-cloud-functions/index.js:79-92 | the ingress record, once moved to a watched folder, is posted for the pushed commit of the pushed repository with its build log as target |
| CloudFunctions.World.constructor | google-cloud-functions/index.js:14-15 | the world starts with the given bucket contents and an empty log |
| CloudFunctions.World.Perform | google-cloud-functions/index.js:148-150 | one effect is appended to the log and applied to the bucket |
| CloudFunctions.World.OnGithubPushTriggerNewBuild | google-cloud-functions/index.js:77-97 | the log grows by the ingress reaction's effects, the bucket becomes the bucket after them, and the outcome is the reaction's, including the throw for a push without a head commit |
| CloudFunctions.World.OnGithubPushAddToCiInbox | src/onGithubPushAddToInboxCloudFunction/index.js:28-38 | the same, for the legacy ingress |
| CloudFunctions.World.UpdateGitCommitState | google-cloud-functions/index.js:173-181 | appends the stage's status post and leaves the bucket unchanged |
| CloudFunctions.World.OnFolderEventUpdateGithubCommitStatus | google-cloud-functions/index.js:162-213 | the log, bucket and outcome are those of the status reaction on the bucket before the call, including the read and parse errors |
| CloudFunctions.World.HandleBuildFile | google-cloud-functions/index.js:191-205 | a classified file's post and exit action, as the classified reaction gives them |
| CloudFunctions.World.FinishBuildFile | google-cloud-functions/index.js:196-205 | the stage's exit action is logged and applied, and the outcome follows the publish |
| CloudFunctions.World.OnFolderEventSendSlackNotification | google-cloud-functions/index.js:337-366 | the log, bucket and outcome are those of the chat reaction on the bucket before the call, including the read and parse errors |
| CloudFunctions.World.NotifyOf | google-cloud-functions/index.js:348-350 | the log and outcome are those of notifying the stage, and the bucket is unchanged |

Two behaviours of the code are easy to misread:

- The current status handler throws on any key outside the three watched folders
  (google-cloud-functions/index.js:206-208). Its guard admits inbox files, so it
  throws on every file the ingress writes (`Handlers.InboxFileEvent`).
- `niceGitRefTruncated` keeps up to 31 characters: it takes
  `substring(0, length + 1)` for names up to 30 characters, and
  `substring(0, 31)` beyond that.

## Left out

- JSON encoding and decoding of build files: an object holds either a `Record`
  value or content that is not JSON. The round trip from write to read is taken as
  exact. JSON that parses to something other than a build record (a number, an
  array, a record with missing or mistyped fields) is not modelled. The legacy
  record (`RepoRecord`) has no timestamp, so reading it gives the timing text
  "NaNs".
- Reading a file as a stream of chunks, and pinning the read to the notified
  generation. A read yields the content under the key. A key that is absent is
  modelled as a thrown read error. In the source the stream's error event has no
  listener, so how that surfaces depends on the runtime.
- The webhook's `head_commit` is either absent, which throws, or present with a
  message and an optional committer username. A present `head_commit` whose
  `committer` is null or absent is not modelled.
- `NOTIFICATION_MESSAGE_SETTINGS` is either unset, which makes the chat handler
  throw for every classified file, or present with a template, a matcher list and
  a shortcode map. Settings that lack one of those fields are not modelled.
- Pub/Sub, the GitHub statuses API and the chat webhook are network calls. Each is
  an effect in the log. A publish's success is the `publishOk` input. HTTP
  responses and the webhook's callback are never inspected; a chat message sent
  is taken to finish the handler.
- The race between the status and chat handlers on the same file
  (google-cloud-functions/index.js:184-189) is concurrency and is not modelled.
  Each handler sees one snapshot of the bucket.
- `Math.round` over a floating-point division is modelled as the integer formula
  `floor((elapsed + 500) / 1000)`. JavaScript's exponent notation for very large
  numbers is left out: every number is written in plain decimal digits.
- String lengths are counted in characters, not UTF-16 code units. Line
  terminators for `.` are "\n", "\r", U+2028 and U+2029.
- JavaScript-specific lookups: a value-map key that names an `Object.prototype`
  member is treated as absent, and the distinction between null and undefined is
  not kept.
- Configuration loading through nconf (command line, file and defaults, in that
  precedence) is one map of strings. `GCP_PROJECT` is only checked for presence.
  `CLEAR_SHA_FILE_ON_SUCCESS` is required but never read by the handlers.
  `SLACK_WEBHOOK_URL` is read only to send, so it is not part of `Config`.
- The legacy loader (src/onGithubPushAddToInboxCloudFunction/config.js:21-33) is
  modelled by `LoadConfig` with `Variant.Legacy`. It requires seven keys and
  refuses empty values. `BUILD_LOG_FOLDER`, which the legacy handler reads, is not
  required and reads as "undefined" when unset. Its `.env` whitelist of four keys
  is part of the single map of strings.
- src/on-github-push-add-to-inbox-cloud-function/index.js is not part of this
  model. It cannot load, and it only echoes request fields.
- Logging and `console.log` output.
