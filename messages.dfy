/**
 * The text helpers of the chat notification and the message it sends:
 * elapsed time, commit-message and ref shortening, ref and emoji selection,
 * and `sendCommitStatusSlackNotification`'s value map and template.
 */
module Messages {
  import opened Wrappers
  import opened Strings
  import opened Model
  import opened Urls
  import Template

  /** `Math.round(millis / 1000)` for whole milliseconds: the nearest second, a half rounded up. */
  function RoundedSeconds(millis: int): (r: int)
    ensures r * 1000 - 500 <= millis < r * 1000 + 500
  {
    (millis + 500) / 1000
  }

  /** `secondsSinceReferenceTime`, with the clock reading passed in as `now`. */
  function SecondsSinceReferenceTime(now: int, referenceTimeMillis: int): string {
    IntToString(RoundedSeconds(now - referenceTimeMillis)) + "s"
  }

  /** The text shows the elapsed time to the nearest second: read back, its digits
      are within half a second of `now - referenceTimeMillis`. */
  lemma SecondsSinceShowsNearestSecond(now: int, referenceTimeMillis: int)
    requires now - referenceTimeMillis >= -500
    ensures var s := SecondsSinceReferenceTime(now, referenceTimeMillis);
            |s| >= 2 && s[|s| - 1] == 's'
            && (forall i :: 0 <= i < |s| - 1 ==> IsDigit(s[i]))
            && DigitsValue(s[..|s| - 1]) * 1000 - 500 <= now - referenceTimeMillis
            && now - referenceTimeMillis < DigitsValue(s[..|s| - 1]) * 1000 + 500
  {
    var n := RoundedSeconds(now - referenceTimeMillis);
    var s := SecondsSinceReferenceTime(now, referenceTimeMillis);
    assert s[..|s| - 1] == NatToString(n);
    NatToStringRoundTrip(n);
  }

  /** 4500 ms after the push the text is "5s". */
  lemma SecondsSinceExample(now: int, referenceTimeMillis: int)
    requires now - referenceTimeMillis == 4500
    ensures SecondsSinceReferenceTime(now, referenceTimeMillis) == "5s"
  {
    assert RoundedSeconds(4500) == 5;
  }

  /** The elapsed time of a record; a record without a push time gives JavaScript's "NaNs". */
  function TimingText(rec: Record, now: int): string {
    match rec
    case BuildRecord(_, pushMillis, _, _, _, _, _, _) => SecondsSinceReferenceTime(now, pushMillis)
    case RepoRecord(_) => "NaNs"
  }

  /** `replace(/\n/g, " ")` */
  function FlattenNewlines(s: string): (r: string)
    ensures |r| == |s|
    ensures forall i :: 0 <= i < |s| ==> r[i] == (if s[i] == '\n' then ' ' else s[i])
  {
    seq(|s|, i requires 0 <= i < |s| => if s[i] == '\n' then ' ' else s[i])
  }

  /** `commitMessageTruncated`: one line of at most 31 characters; a flattened
      message longer than 30 keeps its first 28 characters and gets "...". */
  function CommitMessageTruncated(fullCommitMessage: string): (r: string)
    ensures |r| <= 31
    ensures forall i :: 0 <= i < |r| ==> r[i] != '\n'
    ensures |fullCommitMessage| <= 30 ==> r == FlattenNewlines(fullCommitMessage)
    ensures |fullCommitMessage| > 30 ==>
              |r| == 31 && r[..28] == FlattenNewlines(fullCommitMessage)[..28] && r[28..] == "..."
  {
    var commitMessage := FlattenNewlines(fullCommitMessage);
    if |commitMessage| > 30 then commitMessage[..28] + "..." else commitMessage
  }

  /** Truncating an already truncated message changes nothing. */
  lemma CommitMessageTruncatedIdempotent(m: string)
    ensures CommitMessageTruncated(CommitMessageTruncated(m)) == CommitMessageTruncated(m)
  {
    var r := CommitMessageTruncated(m);
    assert FlattenNewlines(r) == r;
    if |m| > 30 {
      assert r == r[..28] + r[28..];
    }
  }

  /** `niceGitRef`: the first "refs/heads/" removed, then the first "refs/tags/". */
  function NiceGitRef(gitRef: string): string {
    ReplaceFirst(ReplaceFirst(gitRef, "refs/heads/", ""), "refs/tags/", "")
  }

  /** A branch ref loses its "refs/heads/". */
  lemma NiceGitRefOfBranch(branch: string)
    requires !Contains(branch, "refs/tags/")
    ensures NiceGitRef("refs/heads/" + branch) == branch
  {
    ReplaceAtStart("refs/heads/", branch, "");
    assert ReplaceFirst("refs/heads/" + branch, "refs/heads/", "") == branch;
  }

  /** A tag ref loses its "refs/tags/". */
  lemma NiceGitRefOfTag(tag: string)
    requires !Contains(tag, "refs/heads/")
    ensures NiceGitRef("refs/tags/" + tag) == tag
  {
    var s := "refs/tags/" + tag;
    forall i | 0 <= i <= |s| ensures !OccursAt(s, "refs/heads/", i) {
      if OccursAt(s, "refs/heads/", i) {
        assert s[i] == 'r' && s[i + 5] == 'h' by {
          assert s[i..i + 11][0] == 'r' && s[i..i + 11][5] == 'h';
        }
        if i >= 10 {
          assert s[i..i + 11] == tag[i - 10..i - 10 + 11];
          assert OccursAt(tag, "refs/heads/", i - 10);
          assert false;
        } else {
          assert false;
        }
      }
    }
    assert !Contains(s, "refs/heads/");
    ReplaceAtStart("refs/tags/", tag, "");
  }

  /** A ref with neither prefix anywhere is unchanged. */
  lemma NiceGitRefOfPlainRef(gitRef: string)
    requires !Contains(gitRef, "refs/heads/") && !Contains(gitRef, "refs/tags/")
    ensures NiceGitRef(gitRef) == gitRef
  {
  }

  /** `niceGitRefTruncated`: the first min(length, 31) characters of `niceGitRef`. */
  function NiceGitRefTruncated(gitRef: string): (r: string)
    ensures StartsWith(NiceGitRef(gitRef), r)
    ensures |r| == Min(|NiceGitRef(gitRef)|, 31)
  {
    var str := NiceGitRef(gitRef);
    var end := if |str| <= 30 then |str| + 1 else 31;
    str[..Min(end, |str|)]
  }

  /** `determineGitRef`: the ref if there is one, else the base ref, else an error. */
  function DetermineGitRef(gitRef: Option<string>, gitBaseRef: Option<string>): (r: Result<string, Error>)
    ensures r.Err? <==> gitRef.None? && gitBaseRef.None?
    ensures r.Err? ==> r.error == NoGitRef
    ensures r.Ok? ==> r.value == if gitRef.Some? then gitRef.value else gitBaseRef.value
  {
    if gitRef.Some? then Ok(gitRef.value)
    else if gitBaseRef.Some? then Ok(gitBaseRef.value)
    else Err(NoGitRef)
  }

  predicate Matches(gitRef: string, m: EmojiMatcher) {
    StartsWith(gitRef, m.startsWith)
  }

  /** `i` is the first matcher, in list order, that `gitRef` starts with. */
  predicate IsFirstMatch(gitRef: string, matchers: seq<EmojiMatcher>, i: int) {
    0 <= i < |matchers| && Matches(gitRef, matchers[i])
    && forall j :: 0 <= j < i ==> !Matches(gitRef, matchers[j])
  }

  /** `gitRefEmojiMatchers.filter(m => gitRef.startsWith(m.startsWith))` */
  function MatchingMatchers(gitRef: string, matchers: seq<EmojiMatcher>): (r: seq<EmojiMatcher>)
    ensures forall m :: m in r ==> Matches(gitRef, m)
    ensures forall i :: 0 <= i < |matchers| && Matches(gitRef, matchers[i]) ==> matchers[i] in r
    ensures r == [] <==> forall i :: 0 <= i < |matchers| ==> !Matches(gitRef, matchers[i])
    ensures forall i :: IsFirstMatch(gitRef, matchers, i) ==> r != [] && r[0] == matchers[i]
  {
    if matchers == [] then []
    else
      var rest := MatchingMatchers(gitRef, matchers[1..]);
      assert forall i :: IsFirstMatch(gitRef, matchers, i) && i > 0 ==> IsFirstMatch(gitRef, matchers[1..], i - 1);
      if Matches(gitRef, matchers[0]) then [matchers[0]] + rest else rest
  }

  /** The filter keeps list order: one more matcher at the end is kept at the end
      when it matches, and dropped otherwise. */
  lemma {:induction false} MatchingMatchersSnoc(gitRef: string, matchers: seq<EmojiMatcher>, m: EmojiMatcher)
    ensures MatchingMatchers(gitRef, matchers + [m])
         == MatchingMatchers(gitRef, matchers) + (if Matches(gitRef, m) then [m] else [])
    decreases |matchers|
  {
    if matchers == [] {
      assert [] + [m] == [m];
      assert [m][1..] == [];
    } else {
      assert (matchers + [m])[0] == matchers[0];
      assert (matchers + [m])[1..] == matchers[1..] + [m];
      MatchingMatchersSnoc(gitRef, matchers[1..], m);
    }
  }

  /** `determineEmojiForGitRef`: the shortcode of the first matching rule; no match is an error. */
  function DetermineEmojiForGitRef(gitRef: string, matchers: seq<EmojiMatcher>): (r: Result<string, Error>)
    ensures r.Err? <==> forall i :: 0 <= i < |matchers| ==> !Matches(gitRef, matchers[i])
    ensures r.Err? ==> r.error == NoEmojiMatch(gitRef)
    ensures forall i :: IsFirstMatch(gitRef, matchers, i) ==> r == Ok(matchers[i].emojiShortcode)
  {
    var validMatchers := MatchingMatchers(gitRef, matchers);
    if |validMatchers| == 0 then Err(NoEmojiMatch(gitRef))
    else Ok(validMatchers[0].emojiShortcode)
  }

  /** `shortGitSha`: the first seven characters (fewer if the SHA is shorter). */
  function ShortGitSha(gitSha: string): (r: string)
    ensures StartsWith(gitSha, r)
    ensures |r| == Min(7, |gitSha|)
  {
    gitSha[..Min(7, |gitSha|)]
  }

  /** The state names the chat message uses for the three watched stages. */
  function SlackStateName(s: Stage): (r: string)
    requires Watched(s)
    ensures s == InProgress <==> r == "inProgress"
    ensures s == Success <==> r == "success"
    ensures s == Failure <==> r == "failure"
  {
    match s
    case InProgress => "inProgress"
    case Success => "success"
    case Failure => "failure"
  }

  /** A map entry for a value that may be undefined. */
  function OptionalEntry(key: string, value: Option<string>): map<string, string> {
    if value.Some? then map[key := value.value] else map[]
  }

  function Lookup(m: map<string, string>, key: string): Option<string> {
    if key in m then Some(m[key]) else None
  }

  /** The eight entries of the value map that are always defined. */
  function FixedValues(cfg: Config, rec: Record, gitRef: string, gitRefEmoji: string, now: int): map<string, string>
    requires rec.BuildRecord?
  {
    map[
      "gitRefEmojiShortcode" := gitRefEmoji,
      "githubGitShowUrl" := GithubCompareUrl(rec.githubRepoFullName, rec.gitShaBefore, rec.gitSha),
      "shortGitSha" := ShortGitSha(rec.gitSha),
      "timingSeconds" := SecondsSinceReferenceTime(now, rec.githubPushWebhookTimestampMillis),
      "githubDiffVsMasterUrl" := GithubCompareUrl(rec.githubRepoFullName, "master", rec.gitSha),
      "gitRefTruncated" := NiceGitRefTruncated(gitRef),
      "headCommitMessage" := CommitMessageTruncated(rec.headCommitMessage),
      "buildLogUrl" := BuildLogExternalUrl(cfg, rec.gitSha)]
  }

  /** The two shortcodes and the committer's name, each present only when it is
      defined. */
  function OptionalValues(settings: MessageSettings, state: Stage, username: Option<string>): (r: map<string, string>)
    requires Watched(state)
    ensures r.Keys <= {"buildEmojiShortcode", "buildStatusEmojiShortcode", "headCommiterUsername"}
    ensures "headCommiterUsername" in r <==> username.Some?
    ensures username.Some? ==> r["headCommiterUsername"] == username.value
    ensures "buildEmojiShortcode" in r <==> settings.buildEmojiShortcode.Some?
    ensures "buildStatusEmojiShortcode" in r <==> SlackStateName(state) in settings.buildStatusEmojiShortcodes
    ensures settings.buildEmojiShortcode.Some? ==> r["buildEmojiShortcode"] == settings.buildEmojiShortcode.value
    ensures SlackStateName(state) in settings.buildStatusEmojiShortcodes ==>
              r["buildStatusEmojiShortcode"] == settings.buildStatusEmojiShortcodes[SlackStateName(state)]
  {
    OptionalEntry("buildEmojiShortcode", settings.buildEmojiShortcode)
    + OptionalEntry("buildStatusEmojiShortcode", Lookup(settings.buildStatusEmojiShortcodes, SlackStateName(state)))
    + OptionalEntry("headCommiterUsername", username)
  }

  /** The `valueMap` of `sendCommitStatusSlackNotification` under the message
      settings `settings`. Its construction throws when neither ref is set or no
      emoji rule matches; the values that may be undefined (the two shortcodes and
      the committer's name) are left out, so that the template throws if it uses
      them. A record written by the older ingress has no refs at all. */
  function SlackValueMap(cfg: Config, settings: MessageSettings, state: Stage, rec: Record, now: int): Result<map<string, string>, Error>
    requires Watched(state)
  {
    match rec
    case RepoRecord(_) => Err(NoGitRef)
    case BuildRecord(_, _, _, _, ref, baseRef, _, _) =>
      match DetermineGitRef(ref, baseRef)
      case Err(e) => Err(e)
      case Ok(gitRef) =>
        match DetermineEmojiForGitRef(gitRef, settings.gitRefEmojiMatchers)
        case Err(e) => Err(e)
        case Ok(gitRefEmoji) =>
          Ok(FixedValues(cfg, rec, gitRef, gitRefEmoji, now) + OptionalValues(settings, state, rec.headCommiterUsername))
  }

  /** The value map fails exactly when neither ref is set or when no emoji rule
      matches the ref; a record without refs always fails. */
  lemma SlackValueMapFails(cfg: Config, settings: MessageSettings, state: Stage, rec: Record, now: int)
    requires Watched(state)
    ensures var r := SlackValueMap(cfg, settings, state, rec, now);
      && (rec.RepoRecord? ==> r == Err(NoGitRef))
      && (rec.BuildRecord? ==> (r == Err(NoGitRef) <==> rec.gitRef.None? && rec.gitBaseRef.None?))
      && (rec.BuildRecord? && (rec.gitRef.Some? || rec.gitBaseRef.Some?) ==>
            var gitRef := if rec.gitRef.Some? then rec.gitRef.value else rec.gitBaseRef.value;
            && (r.Err? <==> forall i :: 0 <= i < |settings.gitRefEmojiMatchers| ==>
                                       !Matches(gitRef, settings.gitRefEmojiMatchers[i]))
            && (r.Err? ==> r.error == NoEmojiMatch(gitRef)))
  {
  }

  lemma FixedValuesLackOptional(cfg: Config, rec: Record, gitRef: string, gitRefEmoji: string, now: int)
    requires rec.BuildRecord?
    ensures var m := FixedValues(cfg, rec, gitRef, gitRefEmoji, now);
      "buildEmojiShortcode" !in m && "buildStatusEmojiShortcode" !in m && "headCommiterUsername" !in m
  {
  }

  lemma FixedValuesKeys(cfg: Config, rec: Record, gitRef: string, gitRefEmoji: string, now: int)
    requires rec.BuildRecord?
    ensures FixedValues(cfg, rec, gitRef, gitRefEmoji, now).Keys == FixedKeys()
  {
  }

  lemma FixedValuesEntries(cfg: Config, rec: Record, gitRef: string, gitRefEmoji: string, now: int)
    requires rec.BuildRecord?
    ensures var m := FixedValues(cfg, rec, gitRef, gitRefEmoji, now);
      && "shortGitSha" in m && "timingSeconds" in m && "headCommitMessage" in m && "buildLogUrl" in m
      && "githubDiffVsMasterUrl" in m
      && m["shortGitSha"] == ShortGitSha(rec.gitSha)
      && m["timingSeconds"] == SecondsSinceReferenceTime(now, rec.githubPushWebhookTimestampMillis)
      && m["headCommitMessage"] == CommitMessageTruncated(rec.headCommitMessage)
      && m["buildLogUrl"] == BuildLogExternalUrl(cfg, rec.gitSha)
      && m["githubDiffVsMasterUrl"] == GithubCompareUrl(rec.githubRepoFullName, "master", rec.gitSha)
  {
  }

  /** The keys of the entries of the value map that are always defined. */
  function FixedKeys(): set<string> {
    {"gitRefEmojiShortcode", "githubGitShowUrl", "shortGitSha", "timingSeconds",
     "githubDiffVsMasterUrl", "gitRefTruncated", "headCommitMessage", "buildLogUrl"}
  }

  /** The entries of a value map that was built: eight always, and each optional
      value exactly when it is defined; no other key is present. */
  lemma SlackValueMapEntries(cfg: Config, settings: MessageSettings, state: Stage, rec: Record, now: int)
    requires Watched(state)
    requires SlackValueMap(cfg, settings, state, rec, now).Ok?
    ensures rec.BuildRecord?
    ensures var m := SlackValueMap(cfg, settings, state, rec, now).value;
      && ("buildEmojiShortcode" in m <==> settings.buildEmojiShortcode.Some?)
      && ("buildStatusEmojiShortcode" in m <==> SlackStateName(state) in settings.buildStatusEmojiShortcodes)
      && ("headCommiterUsername" in m <==> rec.headCommiterUsername.Some?)
      && m.Keys == FixedKeys() + OptionalValues(settings, state, rec.headCommiterUsername).Keys
      && m["shortGitSha"] == ShortGitSha(rec.gitSha)
      && m["timingSeconds"] == SecondsSinceReferenceTime(now, rec.githubPushWebhookTimestampMillis)
      && m["headCommitMessage"] == CommitMessageTruncated(rec.headCommitMessage)
      && m["buildLogUrl"] == BuildLogExternalUrl(cfg, rec.gitSha)
      && m["githubDiffVsMasterUrl"] == GithubCompareUrl(rec.githubRepoFullName, "master", rec.gitSha)
  {
    var gitRef := DetermineGitRef(rec.gitRef, rec.gitBaseRef).value;
    var emoji := DetermineEmojiForGitRef(gitRef, settings.gitRefEmojiMatchers).value;
    FixedValuesEntries(cfg, rec, gitRef, emoji, now);
    FixedValuesLackOptional(cfg, rec, gitRef, emoji, now);
    FixedValuesKeys(cfg, rec, gitRef, emoji, now);
    assert SlackValueMap(cfg, settings, state, rec, now).value
        == FixedValues(cfg, rec, gitRef, emoji, now) + OptionalValues(settings, state, rec.headCommiterUsername);
  }

  lemma FixedValuesRefEntries(cfg: Config, rec: Record, gitRef: string, gitRefEmoji: string, now: int)
    requires rec.BuildRecord?
    ensures var m := FixedValues(cfg, rec, gitRef, gitRefEmoji, now);
      && "gitRefEmojiShortcode" in m && "gitRefTruncated" in m && "githubGitShowUrl" in m
      && m["gitRefEmojiShortcode"] == gitRefEmoji
      && m["gitRefTruncated"] == NiceGitRefTruncated(gitRef)
      && m["githubGitShowUrl"] == GithubCompareUrl(rec.githubRepoFullName, rec.gitShaBefore, rec.gitSha)
  {
  }

  /** The entries of a built value map that depend on the ref, the settings and the
      committer: the emoji of the first matching rule, the shortened ref, the
      configured shortcodes, the status one looked up under the stage's state name,
      and the committer's name when it is defined. */
  lemma SlackValueMapRefEntries(cfg: Config, settings: MessageSettings, state: Stage, rec: Record, now: int)
    requires Watched(state)
    requires SlackValueMap(cfg, settings, state, rec, now).Ok?
    ensures rec.BuildRecord? && DetermineGitRef(rec.gitRef, rec.gitBaseRef).Ok?
    ensures var m := SlackValueMap(cfg, settings, state, rec, now).value;
            var gitRef := DetermineGitRef(rec.gitRef, rec.gitBaseRef).value;
      && DetermineEmojiForGitRef(gitRef, settings.gitRefEmojiMatchers).Ok?
      && "gitRefEmojiShortcode" in m && "gitRefTruncated" in m && "githubGitShowUrl" in m
      && m["gitRefEmojiShortcode"] == DetermineEmojiForGitRef(gitRef, settings.gitRefEmojiMatchers).value
      && m["gitRefTruncated"] == NiceGitRefTruncated(gitRef)
      && m["githubGitShowUrl"] == GithubCompareUrl(rec.githubRepoFullName, rec.gitShaBefore, rec.gitSha)
      && (rec.headCommiterUsername.Some? ==>
            "headCommiterUsername" in m && m["headCommiterUsername"] == rec.headCommiterUsername.value)
      && (settings.buildEmojiShortcode.Some? ==>
            "buildEmojiShortcode" in m && m["buildEmojiShortcode"] == settings.buildEmojiShortcode.value)
      && (SlackStateName(state) in settings.buildStatusEmojiShortcodes ==>
            "buildStatusEmojiShortcode" in m
            && m["buildStatusEmojiShortcode"] == settings.buildStatusEmojiShortcodes[SlackStateName(state)])
  {
    var gitRef := DetermineGitRef(rec.gitRef, rec.gitBaseRef).value;
    var emoji := DetermineEmojiForGitRef(gitRef, settings.gitRefEmojiMatchers).value;
    FixedValuesRefEntries(cfg, rec, gitRef, emoji, now);
    FixedValuesLackOptional(cfg, rec, gitRef, emoji, now);
    FixedValuesKeys(cfg, rec, gitRef, emoji, now);
    assert SlackValueMap(cfg, settings, state, rec, now).value
        == FixedValues(cfg, rec, gitRef, emoji, now) + OptionalValues(settings, state, rec.headCommiterUsername);
  }

  /** The text `sendCommitStatusSlackNotification` sends, or what it throws; its
      first step reads the message settings, which throws when they are unset. */
  function SlackMessage(cfg: Config, state: Stage, rec: Record, now: int): Result<string, Error>
    requires Watched(state)
  {
    match cfg.messageSettings
    case None => Err(NoMessageSettings)
    case Some(settings) =>
      match SlackValueMap(cfg, settings, state, rec, now)
      case Err(e) => Err(e)
      case Ok(valueMap) =>
        match Template.Interpolate(settings.messageTemplate, valueMap)
        case Ok(text) => Ok(text)
        case Err(key) => Err(MissingTemplateValue(key))
  }

  /** The message fails exactly on unset settings, a missing ref, an unmatched ref
      or the first placeholder of the template whose value is undefined, in that
      order; otherwise it is the template filled with the value map. */
  lemma SlackMessageOutcome(cfg: Config, state: Stage, rec: Record, now: int)
    requires Watched(state)
    ensures var r := SlackMessage(cfg, state, rec, now);
            match cfg.messageSettings
            case None => r == Err(NoMessageSettings)
            case Some(settings) =>
              match SlackValueMap(cfg, settings, state, rec, now)
              case Err(e) => r == Err(e)
              case Ok(valueMap) =>
                var keys := Template.Placeholders(settings.messageTemplate);
                var i := FirstAbsent(keys, valueMap.Keys);
                && (r.Err? <==> i >= 0) && (i >= 0 ==> r == Err(MissingTemplateValue(keys[i])))
                && (r.Ok? ==> Template.Interpolate(settings.messageTemplate, valueMap) == Ok(r.value))
  {
    match cfg.messageSettings
    case None =>
    case Some(settings) =>
      match SlackValueMap(cfg, settings, state, rec, now)
      case Err(e) =>
      case Ok(valueMap) =>
        Template.InterpolateFailsOnFirstMissingKey(settings.messageTemplate, valueMap);
  }
}
