/**
 * The commit-status request both bucket-triggered status handlers send to the
 * GitHub statuses API (`httpPostGitShaStatusToGithub`).
 */
module Requests {
  import opened Wrappers
  import opened Strings
  import opened Model
  import opened Urls
  import opened Messages

  /** The headers, URL and JSON body fields of one status post. `context` is
      `None` when the body has no "context" field. */
  datatype StatusRequest = StatusRequest(
    url: string,
    authorization: string,
    userAgent: string,
    state: string,
    targetUrl: string,
    description: string,
    context: Option<string>)

  /** `GITHUB_COMMIT_STATE_*`: the commit state each watched stage reports. */
  function CommitState(s: Stage): (r: string)
    requires Watched(s)
    ensures r in {"pending", "success", "failure"}
    ensures s == InProgress <==> r == "pending"
    ensures s == Success <==> r == "success"
    ensures s == Failure <==> r == "failure"
  {
    match s
    case InProgress => "pending"
    case Success => "success"
    case Failure => "failure"
  }

  /** Different stages report different states. */
  lemma CommitStateInjective(s: Stage, t: Stage)
    requires Watched(s) && Watched(t) && CommitState(s) == CommitState(t)
    ensures s == t
  {
  }

  /** `httpPostGitShaStatusToGithub`. */
  function HttpPostGitShaStatus(cfg: Config, githubRepoFullName: string, gitCommitSha: string,
                                githubGitCommitState: string, detailUrl: string, description: string): StatusRequest
  {
    StatusRequest(
      "https://api.github.com/repos/" + githubRepoFullName + "/statuses/" + gitCommitSha,
      "token " + cfg.githubAccessToken,
      "some-User-Agent",
      githubGitCommitState,
      BuildLogExternalUrl(cfg, gitCommitSha),
      description + " [RAWCI]",
      if cfg.variant == Current then Some("raw-ci/" + cfg.buildName) else None)
  }

  /** The post goes to the status endpoint of the commit, with the given state, and
      targets the commit's build log whatever detail URL it is given; the description
      is extended by an eight-character marker; only the current handler sends a
      context. */
  lemma HttpPostGitShaStatusContents(cfg: Config, githubRepoFullName: string, gitCommitSha: string,
                                     githubGitCommitState: string, detailUrl: string, description: string)
    ensures var r := HttpPostGitShaStatus(cfg, githubRepoFullName, gitCommitSha, githubGitCommitState, detailUrl, description);
      && r.url == StatusUrl(githubRepoFullName, gitCommitSha)
      && r.targetUrl == BuildLogExternalUrl(cfg, gitCommitSha)
      && r.state == githubGitCommitState
      && |r.description| == |description| + 8 && r.description[..|description|] == description
      && r.description[|description|..] == " [RAWCI]"
      && (r.context.Some? <==> cfg.variant == Current)
      && (cfg.variant == Current ==> r.context.value == "raw-ci/" + cfg.buildName)
  {
  }

  /** The request does not depend on the detail URL it is given. */
  lemma DetailUrlIgnored(cfg: Config, repo: string, sha: string, state: string, d1: string, d2: string, description: string)
    ensures HttpPostGitShaStatus(cfg, repo, sha, state, d1, description)
         == HttpPostGitShaStatus(cfg, repo, sha, state, d2, description)
  {
  }

  /** The detail URL each handler passes. */
  function DetailUrl(cfg: Config, gitSha: string): string {
    match cfg.variant
    case Current => BuildLogExternalUrl(cfg, gitSha)
    case Legacy => "http://www.google.com"
  }

  /** The description each handler passes: the current one reports the time since
      the push reached the ingress; the legacy one a fixed text. */
  function StatusDescription(cfg: Config, rec: Record, now: int, state: string): string {
    match cfg.variant
    case Current => TimingText(rec, now) + " from initial receipt to '" + state + "'"
    case Legacy => "this is the description"
  }

  /** `updateGitCommitState`: the status post for the file of `gitSha` in stage `s`. */
  function CommitStatusUpdate(cfg: Config, rec: Record, gitSha: string, s: Stage, now: int): StatusRequest
    requires Watched(s)
  {
    HttpPostGitShaStatus(cfg, rec.githubRepoFullName, gitSha, CommitState(s), DetailUrl(cfg, gitSha),
                         StatusDescription(cfg, rec, now, CommitState(s)))
  }

  /** What the update contains: the commit's status endpoint for the record's
      repository, the stage's state and the build log as target; the current handler
      adds its "raw-ci/" context, and its description starts with the elapsed time. */
  lemma CommitStatusUpdateContents(cfg: Config, rec: Record, gitSha: string, s: Stage, now: int)
    requires Watched(s)
    ensures var r := CommitStatusUpdate(cfg, rec, gitSha, s, now);
      && r.url == StatusUrl(rec.githubRepoFullName, gitSha)
      && r.state == CommitState(s)
      && r.targetUrl == BuildLogExternalUrl(cfg, gitSha)
      && r.description == StatusDescription(cfg, rec, now, CommitState(s)) + " [RAWCI]"
      && (cfg.variant == Current ==> r.context == Some("raw-ci/" + cfg.buildName)
                                     && StartsWith(r.description, TimingText(rec, now))
                                     && r.description == TimingText(rec, now) + " from initial receipt to '"
                                                         + CommitState(s) + "' [RAWCI]")
      && (cfg.variant == Legacy ==> r.context.None? && r.description == "this is the description [RAWCI]")
  {
    var d := StatusDescription(cfg, rec, now, CommitState(s));
    var r := CommitStatusUpdate(cfg, rec, gitSha, s, now);
    HttpPostGitShaStatusContents(cfg, rec.githubRepoFullName, gitSha, CommitState(s), DetailUrl(cfg, gitSha), d);
    assert r.description == r.description[..|d|] + r.description[|d|..];
    if cfg.variant == Current {
      var t := TimingText(rec, now);
      assert d == t + " from initial receipt to '" + CommitState(s) + "'";
      assert d[..|t|] == t;
      assert r.description[..|t|] == d[..|t|];
    }
  }
}
