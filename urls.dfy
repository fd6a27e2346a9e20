/** The URLs the handlers build: storage paths, build-log links, GitHub links. */
module Urls {
  import opened Wrappers
  import opened Strings
  import opened Model

  function GsPrefix(cfg: Config): string {
    "gs://" + cfg.bucket + "/"
  }

  /** `fileUrl`: the `gs://` location of a key, the payload of every publish. */
  function FileUrl(cfg: Config, key: string): (r: string)
    ensures StartsWith(r, GsPrefix(cfg))
    ensures GsPathKey(cfg, r) == Some(key)
  {
    "gs://" + cfg.bucket + "/" + key
  }

  /** What a subscriber recovers from a published payload: the key under the bucket. */
  function GsPathKey(cfg: Config, url: string): Option<string> {
    if StartsWith(url, GsPrefix(cfg)) then Some(url[|GsPrefix(cfg)|..]) else None
  }

  /** Payloads of different keys are different. */
  lemma FileUrlInjective(cfg: Config, k1: string, k2: string)
    requires FileUrl(cfg, k1) == FileUrl(cfg, k2)
    ensures k1 == k2
  {
    assert GsPathKey(cfg, FileUrl(cfg, k1)) == Some(k1);
  }

  function LogUrlPrefix(cfg: Config): string {
    "https://storage.googleapis.com/" + cfg.bucket + "/" + cfg.buildLogFolder + "/"
  }

  /** `buildLogExternalUrl`: where the log of the build of `gitSha` is published. */
  function BuildLogExternalUrl(cfg: Config, gitSha: string): (r: string)
    ensures StartsWith(r, LogUrlPrefix(cfg))
    ensures r[|LogUrlPrefix(cfg)|..] == gitSha + ".log"
  {
    "https://storage.googleapis.com/" + cfg.bucket + "/" + cfg.buildLogFolder + "/" + gitSha + ".log"
  }

  /** Distinct SHAs have distinct log URLs. */
  lemma BuildLogUrlInjective(cfg: Config, a: string, b: string)
    requires BuildLogExternalUrl(cfg, a) == BuildLogExternalUrl(cfg, b)
    ensures a == b
  {
    var n := |LogUrlPrefix(cfg)|;
    assert (a + ".log")[..|a|] == a;
    assert (b + ".log")[..|b|] == b;
  }

  /** The commit-status endpoint of the GitHub API for one commit. */
  function StatusUrl(repo: string, gitSha: string): (r: string)
    ensures StartsWith(r, "https://api.github.com/repos/" + repo + "/statuses/")
    ensures r[|"https://api.github.com/repos/" + repo + "/statuses/"|..] == gitSha
  {
    "https://api.github.com/repos/" + repo + "/statuses/" + gitSha
  }

  /** `githubCompareUrl`: the GitHub page comparing `gitShaBefore` with `gitSha`. */
  function GithubCompareUrl(repo: string, gitShaBefore: string, gitSha: string): (r: string)
    ensures StartsWith(r, "https://github.com/" + repo + "/compare/" + gitShaBefore + "...")
    ensures r[|"https://github.com/" + repo + "/compare/" + gitShaBefore + "..."|..] == gitSha
  {
    "https://github.com/" + repo + "/compare/" + gitShaBefore + "..." + gitSha
  }
}
