/** What the three update scripts share: the rebase result record, the
    errors they raise, and the way they put the integration branch in place
    before rebasing (create it from `origin/<branch>`, or check out the one
    that already exists). */
module Rebasing {
  import opened Wrappers
  import opened Git

  /** The `NixpkgsRebaseResult` dataclass. `forkCommit` is origin's view of
      the release branch; `forkBeforeRebase` and `forkAfterRebase` are HEAD
      around today's rebase. */
  datatype NixpkgsRebaseResult = NixpkgsRebaseResult(
    upstreamCommit: Commit,
    forkCommit: Commit,
    forkBeforeRebase: Commit,
    forkAfterRebase: Commit)

  /** The exceptions the scripts let escape. */
  datatype Failure =
    | DirtyRepository          // raise Exception("Repository is dirty!")
    | UnknownRevision(rev: string)  // a ref lookup or create_head on a missing ref
    | RebaseFailed             // a git rebase outside any try block failed
    | AbortFailed              // git rebase --abort with no rebase in progress
    | PushFailed               // git push refused
    | FetchFailed(remote: string)  // an uncaught fetch error
    | CloneFailed              // Repo.clone_from failed
    | NixFailed(step: string)  // a nix subprocess exited non-zero
    | DeleteFailed(branch: string)  // the hosting API found no such branch
    | BadBranchName(name: string)   // split/fromisoformat raised on a branch name

  /** How `rebase_nixpkgs` ends. Python returns `None` for `UpToDate`,
      `Conflict` and `SameAsLastDay` alike; the model tells them apart. */
  datatype RebaseOutcome =
    | Raised(failure: Failure)
    | UpToDate
    | Conflict
    | SameAsLastDay
    | Rebased(result: NixpkgsRebaseResult)

  /** A repository state together with how the call ended. */
  datatype Run<T> = Run(state: RepoState, outcome: T)

  /** The remote-tracking branch `origin/<branch>`. */
  function Origin(branch: string): string
  {
    RemoteRef("origin", branch)
  }

  /** The remote-tracking branch `upstream/<branch>`. */
  function Upstream(branch: string): string
  {
    RemoteRef("upstream", branch)
  }

  /** Branch materialisation: a missing `integration` branch is created at
      `origin/<branch>` and checked out, an existing one is checked out as it
      is. `None` where `create_head` raises because `origin/<branch>` does
      not resolve. */
  function Materialize(s: RepoState, integration: string, branch: string): (r: Option<RepoState>)
    ensures r.Some? <==> integration in s.heads || s.Resolve(Origin(branch)).Some?
    ensures integration in s.heads ==> r == Some(s.(current := integration))
    ensures integration !in s.heads && r.Some? ==>
      r.value == s.(heads := s.heads[integration := s.Resolve(Origin(branch)).value], current := integration)
  {
    if integration !in s.heads then
      if s.Resolve(Origin(branch)).None? then None
      else Some(AfterCheckout(AfterCreateHead(s, integration, Origin(branch)), integration))
    else Some(AfterCheckout(s, integration))
  }

  /** `rebase_nixpkgs`' staleness test: the latest upstream commit is one of
      the merge bases of `upstream/<branch>` and HEAD. */
  predicate UpstreamContained(latest: Commit, head: Commit, git: Oracles)
  {
    latest in git.mergeBase(latest, head)
  }

  /** Lines 109-115 of the daily script (and their copies) on a repository. */
  method MaterializeBranch(repo: Repo, integration: string, branch: string) returns (ok: bool)
    modifies repo
    ensures ok == Materialize(old(repo.State()), integration, branch).Some?
    ensures repo.State() == if ok then Materialize(old(repo.State()), integration, branch).value else old(repo.State())
  {
    if integration !in repo.heads {
      ok := repo.CreateHead(integration, Origin(branch));
      if ok {
        var _ := repo.Checkout(integration);
      }
    } else {
      var _ := repo.Checkout(integration);
      ok := true;
    }
  }
}
