/**
 * Which storage notifications the bucket-triggered handlers act on, and which
 * stage a file's key puts it in.
 */
module Classifier {
  import opened Wrappers
  import opened Strings
  import opened Model

  predicate NoSlash(s: string) {
    forall i :: 0 <= i < |s| ==> s[i] != '/'
  }

  /** `fileName.substring(fileName.lastIndexOf("/") + 1)`: the longest suffix of the
      name without a "/", which is the whole name when it has none. */
  function ParseGitShaFromFileName(fileName: string): (r: string)
    ensures |r| <= |fileName| && fileName[|fileName| - |r|..] == r
    ensures NoSlash(r)
    ensures |r| < |fileName| ==> fileName[|fileName| - |r| - 1] == '/'
  {
    fileName[LastIndexOf(fileName, '/') + 1..]
  }

  /** A character of the class `[a-f0-9]` under the `i` flag. */
  predicate IsHexDigit(c: char) {
    '0' <= c <= '9' || 'a' <= c <= 'f' || 'A' <= c <= 'F'
  }

  /** `s.match(/^[a-f0-9]{40}$/i)` succeeds. */
  predicate IsGitSha(s: string) {
    |s| == 40 && forall i :: 0 <= i < |s| ==> IsHexDigit(s[i])
  }

  /** The guard of the current handlers: the object exists and its last path
      segment is a 40-digit hexadecimal SHA. */
  predicate ShaGuard(event: StorageEvent) {
    event.resourceState == "exists" && IsGitSha(ParseGitShaFromFileName(event.name))
  }

  /** The guard of the commit-status handler; the legacy one has no SHA test. */
  predicate StatusGuard(cfg: Config, event: StorageEvent) {
    match cfg.variant
    case Current => ShaGuard(event)
    case Legacy => event.resourceState == "exists"
  }

  /** The position of a watched stage in the handlers' `startsWith` chain. */
  function TestOrder(s: Stage): nat
    requires Watched(s)
  {
    match s
    case InProgress => 0
    case Success => 1
    case Failure => 2
  }

  /** The stage of `key`: the first folder, in the order in-progress, success,
      failure, whose `folder + "/"` the key starts with. The inbox folder is never
      tested, so an inbox key is classified like any other unwatched key. */
  function Classify(cfg: Config, key: string): (r: Option<Stage>)
    ensures r.Some? ==> Watched(r.value) && StartsWith(key, FolderPrefix(cfg, r.value))
    ensures r.Some? ==> forall t :: Watched(t) && TestOrder(t) < TestOrder(r.value)
                                    ==> !StartsWith(key, FolderPrefix(cfg, t))
    ensures r.None? <==> forall t :: Watched(t) ==> !StartsWith(key, FolderPrefix(cfg, t))
  {
    if StartsWith(key, cfg.ciInProgressFolder + "/") then Some(InProgress)
    else if StartsWith(key, cfg.ciSuccessFolder + "/") then Some(Success)
    else if StartsWith(key, cfg.ciFailureFolder + "/") then Some(Failure)
    else None
  }

  /** No folder prefix is a prefix of another stage's folder prefix (in particular
      the four folder names are distinct). */
  predicate FoldersIndependent(cfg: Config) {
    forall s, t :: s != t ==> !StartsWith(FolderPrefix(cfg, s), FolderPrefix(cfg, t))
  }

  lemma PrefixesOfOneKey(key: string, p: string, q: string)
    requires StartsWith(key, p) && StartsWith(key, q) && |p| <= |q|
    ensures StartsWith(q, p)
  {
    assert q[..|p|] == key[..|q|][..|p|];
  }

  /** With independent folders the order of the tests does not matter: a key is
      classified as a watched stage exactly when it starts with that stage's prefix. */
  lemma ClassifyOrderIrrelevant(cfg: Config, key: string, s: Stage)
    requires FoldersIndependent(cfg) && Watched(s)
    ensures Classify(cfg, key) == Some(s) <==> StartsWith(key, FolderPrefix(cfg, s))
  {
    var r := Classify(cfg, key);
    if StartsWith(key, FolderPrefix(cfg, s)) && r != Some(s) {
      var t := r.value;
      var p, q := FolderPrefix(cfg, s), FolderPrefix(cfg, t);
      if |p| <= |q| {
        PrefixesOfOneKey(key, p, q);
      } else {
        PrefixesOfOneKey(key, q, p);
      }
    }
  }

  /** A prefix ending in "/" of `q + x`, where `x` has no "/", is a prefix of `q`. */
  lemma PrefixBeforeSlashFree(p: string, q: string, x: string)
    requires |p| >= 1 && p[|p| - 1] == '/' && NoSlash(x)
    requires StartsWith(q + x, p)
    ensures StartsWith(q, p)
  {
    assert |p| <= |q|;
    assert (q + x)[..|p|] == q[..|p|];
  }

  /** A file named `folder + "/" + sha`, for a `sha` without "/", is classified as
      that folder's stage; an inbox file is unclassified. */
  lemma {:induction false} StageKeyClassified(cfg: Config, s: Stage, sha: string)
    requires FoldersIndependent(cfg) && NoSlash(sha)
    ensures Classify(cfg, FolderPrefix(cfg, s) + sha) == if s == Inbox then None else Some(s)
  {
    var key := FolderPrefix(cfg, s) + sha;
    assert StartsWith(key, FolderPrefix(cfg, s));
    forall t | t != s
      ensures !StartsWith(key, FolderPrefix(cfg, t))
    {
      if StartsWith(key, FolderPrefix(cfg, t)) {
        PrefixBeforeSlashFree(FolderPrefix(cfg, t), FolderPrefix(cfg, s), sha);
      }
    }
  }

  /** A 40-digit SHA contains no "/". */
  lemma GitShaHasNoSlash(sha: string)
    requires IsGitSha(sha)
    ensures NoSlash(sha)
  {
    forall i | 0 <= i < |sha| ensures sha[i] != '/' {
      assert IsHexDigit(sha[i]);
    }
  }

  /** The name parsed from `dir + "/" + x`, for an `x` without "/", is `x`. */
  lemma {:induction false} ParseGitShaAfterSlash(dir: string, x: string)
    requires NoSlash(x)
    ensures ParseGitShaFromFileName(dir + "/" + x) == x
  {
    var key := dir + "/" + x;
    var r := ParseGitShaFromFileName(key);
    assert key[|key| - |x| - 1] == '/';
    assert |r| == |x|;
    assert key[|key| - |x|..] == x;
  }

  /** The SHA parsed from `folder + "/" + sha` is `sha` again. */
  lemma ParseGitShaOfStageKey(cfg: Config, s: Stage, sha: string)
    requires NoSlash(sha)
    ensures ParseGitShaFromFileName(FolderPrefix(cfg, s) + sha) == sha
  {
    ParseGitShaAfterSlash(FolderOf(cfg, s), sha);
  }
}
