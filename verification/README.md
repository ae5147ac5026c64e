# nixpkgs auto-update orchestration, modelled in Dafny

Flying Circus keeps its own fork of nixpkgs. Three Python scripts keep the
fork's release branches on top of upstream NixOS and feed the result into
fc-nixos:

- `ci/update-nixpkgs.py` is the daily CI job. For each platform version
  `v` it reconciles the nixpkgs checkout's remotes. It then rebases
  today's integration branch `nixpkgs-auto-update/fc-<v>-dev/<today>`
  onto `upstream/nixos-<v>`. The branch is pushed unless its tree equals
  yesterday's integration branch. Finally the job commits the new nixpkgs
  pin, the version files and a changelog fragment to fc-nixos.
- `update-nixpkgs.py` is the release manager's manual script. It does the
  same rebase, aborts a conflicting rebase, and pushes with
  `--force-with-lease`.
- `ci/update-nixpkgs-merged.py` runs when an update pull request is merged.
  It rebases whatever branch the checkout has current onto the release
  branch `nixos-<v>`, then onto the integration branch, and pushes the
  result with `--force-with-lease`. A conflict in the second rebase is
  aborted; one in the first is not caught. It then deletes the branch on the nixpkgs host, comments on
  the pull request, and deletes every older integration branch on both
  hosts.

The model keeps the scripts' decisions. Git and GitHub enter only as state
and oracles:

- **Repository.** A git checkout is the class `Git.Repo`. Its fields are
  the remotes, local heads, remote-tracking refs, the current branch, the
  dirty and rebase-in-progress flags, the staged paths, the files written,
  the commits made and the pushes made. Each GitPython call the scripts
  make is a method of the class. Each method is specified by a pure
  transition function on the `RepoState` snapshot.
- **Oracles.** Merge bases, the outcome of a rebase (new tip or conflict)
  and "the tree equals that ref" are parameters (`Git.Oracles`). What a
  remote URL serves is a parameter too (`Git.Server`).
- **Scripts.** Each script's functions are methods on a `Repo` that are
  proved equal to a pure specification of the whole call (`CiRebase`,
  `ManualRebase`, `MergedRebase`, `FcUpdate`, `Cleanup`, `Reconcile`). The
  properties are lemmas about those specifications.
- **Exceptions.** Python exceptions are values: `Rebasing.Failure`,
  carried in `RebaseOutcome` or `Answer`.
- **Hosting.** A hosting repository is a `Hosting.Host`, whose field is its
  list of branch names in listing order. A pull request is a
  `Hosting.PullRequest` holding its comments.
- **Names and dates.** These are pure functions. `Text` models Python's
  `split`, `join`, `startswith` and zero padding. `Dates` models
  `datetime.date` validity, `<`, the previous day, `isoformat` and
  `fromisoformat`. `Naming` derives the branch names.

Files: `wrappers.dfy`, `text.dfy`, `dates.dfy`, `naming.dfy`, `git.dfy`,
`remotes.dfy`, `rebasing.dfy`, `ci_update.dfy`, `manual_update.dfy`,
`hosting.dfy`, `merged_update.dfy`.

## Model

| member | source | states |
|---|---|---|
| Text.Split | ci/update-nixpkgs-merged.py:72-74 | `str.split` on one character: one more piece than separators, no piece holds the separator, a text without it is one piece |
| Text.SplitAround | ci/update-nixpkgs-merged.py:80 | splitting `a + sep + b` gives the pieces of `a` followed by the pieces of `b` |
| Text.SplitThree | ci/update-nixpkgs-merged.py:14 | three separator-free parts glued with the separator split back into exactly those three parts |
| Text.JoinSplit | ci/update-nixpkgs-merged.py:36 | `sep.join(s.split(sep)) == s` |
| Text.JoinHasSeparator | ci/update-nixpkgs-merged.py:36 | joining two or more pieces with a separator puts the separator into the result |
| Text.Padded | ci/update-nixpkgs.py:189 | `%0<w>d`: exactly `w` decimal digits whose value is `n` |
| Text.PaddedOfValue | ci/update-nixpkgs.py:189 | a digit string is the padded rendering of its own value, so padding is onto the digit strings of its width |
| Dates.DaysInMonth | ci/update-nixpkgs.py:262-264 | Gregorian month lengths lie between 28 and 31 |
| Dates.Yesterday | ci/update-nixpkgs.py:262-264 | `today - timedelta(days=1)` fails exactly on 0001-01-01; otherwise it is a valid date strictly before today |
| Dates.Tomorrow | ci/update-nixpkgs.py:262-264 | the next day fails exactly on 9999-12-31; otherwise it is a valid date strictly after |
| Dates.YesterdayIsPredecessor | ci/update-nixpkgs.py:262-264 | the day after yesterday is today, and no valid date lies strictly between them |
| Dates.IsoFormat | ci/update-nixpkgs.py:261 | `date.isoformat()` is ten characters with `-` at positions 4 and 7 |
| Dates.FromIsoFormat | ci/update-nixpkgs-merged.py:72-74 | `date.fromisoformat` accepts only text that denotes a valid date |
| Dates.ParseIsoFormat | ci/update-nixpkgs-merged.py:72-74 | `fromisoformat(d.isoformat()) == d` for every valid date |
| Dates.FormatParsedIso | ci/update-nixpkgs-merged.py:80-82 | text `fromisoformat` accepts is the `isoformat` of what it returns: the two are inverse on `YYYY-MM-DD` |
| Naming.PlatformVersionOf | ci/update-nixpkgs-merged.py:108 | `base.split("-")[1]` exists exactly when the base branch has a `-`, and contains no `-` |
| Naming.BranchDate | ci/update-nixpkgs-merged.py:72-74 | the date at `/`-component 2 is read only from a name with at least two `/` and is a valid date |
| Naming.IsoFormatHasNoSlash | ci/update-nixpkgs-merged.py:14 | an ISO date contains no `/`, so it stays one component of the branch name |
| Naming.IntegrationBranchRoundTrip | ci/update-nixpkgs-merged.py:14 | for a target without `/`, the scheme's name splits into prefix, target and date, its date reads back as `d`, and it is in the `nixpkgs-auto-update/` namespace |
| Naming.ParsedBranchIsScheme | ci/update-nixpkgs-merged.py:80-82 | a three-component name in the namespace whose date parses is exactly the scheme applied to its target and date |
| Naming.PlatformVersionRoundTrip | ci/update-nixpkgs-merged.py:108-110 | for a version without `-`, `("fc-"+v+"-dev").split("-")[1] == v` and the derived target is `nixos-<v>` |
| Git.RepoState.Resolve | ci/update-nixpkgs.py:117 | `repo.refs[rev]` finds a local head before a remote-tracking ref, and nothing when neither exists |
| Git.RebaseStepOf | ci/update-nixpkgs.py:129-132 | a rebase is refused on a dirty tree, during another rebase, or on a missing ref; otherwise it replays exactly when the oracle gives a tip, and the tip is the oracle's |
| Git.Repo.Init | ci/update-nixpkgs.py:74 | `Repo.init` gives a repository without remotes, branches or history |
| Git.Repo.Lookup | ci/update-nixpkgs.py:117 | a ref lookup returns what `Resolve` finds |
| Git.Repo.IsDirty | ci/update-nixpkgs.py:106 | `is_dirty()` reports the dirty flag and changes nothing |
| Git.Repo.DeleteRemote | ci/update-nixpkgs.py:78-79 | the remote and its tracking branches are gone; nothing else changes |
| Git.Repo.CreateRemote | ci/update-nixpkgs.py:80-81 | the remote maps to the URL; nothing else changes |
| Git.Repo.FetchBranch | ci/update-nixpkgs.py:89-91 | a fetch with one refspec succeeds exactly when the remote's URL serves that branch, and then sets its tracking branch |
| Git.Repo.FetchAll | update-nixpkgs.py:76 | a fetch with the default refspec succeeds exactly when the URL is reachable, and then sets the tracking branch of everything it serves |
| Git.Repo.CreateHead | ci/update-nixpkgs.py:110-112 | `create_head` succeeds exactly when the start point resolves, and adds the head there |
| Git.Repo.Checkout | ci/update-nixpkgs.py:113-115 | `checkout` makes an existing branch current |
| Git.Repo.Rebase | ci/update-nixpkgs.py:130 | the state after `git rebase` is the transition that `RebaseStepOf` decides |
| Git.Repo.RebaseAbort | update-nixpkgs.py:100 | `--abort` succeeds exactly when a rebase is in progress, and leaves a clean tree |
| Git.Repo.Push | ci/update-nixpkgs.py:146 | a push succeeds when the remote and branch exist, and appends one record with the branch's tip and force mode |
| Git.Repo.WriteFile | ci/update-nixpkgs.py:191-197 | writing the changelog fragment records its text under its path |
| Git.Repo.Add | ci/update-nixpkgs.py:199-206 | `git add` stages the paths |
| Git.Repo.Commit | ci/update-nixpkgs.py:207 | `git commit` records the staged paths and message as a commit, moves the current branch to it, and empties the stage |
| Remotes.WantedOf | ci/update-nixpkgs.py:76-83 | the remotes dict in insertion order as name, URL and set of branches to fetch |
| Remotes.Reconfigured | ci/update-nixpkgs.py:78-81 | afterwards the name maps to the URL; a matching remote is left as is; a differing one loses its tracking branches (delete, then create) |
| Remotes.ReconcileRemotes | ci/update-nixpkgs.py:76-81 | after reconciliation the remote map is the old one with each configured name mapped to its configured URL |
| Remotes.OthersPreserve | ci/update-nixpkgs.py:76-94 | reconciling other remotes leaves an already reconciled remote and its fetched branches alone |
| Remotes.ReconcileSettles | ci/update-nixpkgs.py:83-94 | every configured remote ends with its URL and every branch its URL serves fetched, whichever other fetches failed |
| Remotes.SettledIsFixpoint | ci/update-nixpkgs.py:76-94 | a repository already as configured is not changed |
| Remotes.ReconcileIdempotent | ci/update-nixpkgs.py:76-94 | a second run changes nothing |
| Remotes.Reconfigure | ci/update-nixpkgs.py:78-81 | the two `if`s on a repository reach `Reconfigured`, and only the remote configuration changes |
| Remotes.FetchEachIgnoringFailures | ci/update-nixpkgs.py:83-94 | the per-branch fetch loop with failures swallowed adds the tracking branches of exactly the listed branches the URL serves, and changes nothing else |
| Remotes.ConfigureAndFetch | ci/update-nixpkgs.py:77-94 | one iteration of the remotes loop is one `Step` of the reconciliation |
| Rebasing.Materialize | ci/update-nixpkgs.py:109-115 | branch materialisation fails exactly when the branch is missing and `origin/<branch>` does not resolve. An existing head is only checked out; a missing one is created at `origin/<branch>` and checked out |
| Rebasing.MaterializeBranch | update-nixpkgs.py:85-89 | the repository steps reach `Materialize`, and nothing changes when `create_head` raises |
| CiUpdate.PlanPlatform | ci/update-nixpkgs.py:261-285 | the names and remotes of one platform version are defined exactly when yesterday exists |
| CiUpdate.PlanNames | ci/update-nixpkgs.py:261-275 | today's and yesterday's integration branches carry their dates at component 2, are in the namespace, share the fc-nixos target, differ, and yesterday's is older |
| CiUpdate.PlanRemotes | ci/update-nixpkgs.py:277-285 | upstream fetches `nixos-<v>`; origin fetches it and yesterday's branch; both names are distinct and free of `/`; the merge job reads `v` back from `fc-<v>-dev` |
| CiUpdate.NixpkgsRepository | ci/update-nixpkgs.py:69-96 | opening or initialising the checkout and running the remotes loop gives the specification `Reconcile` of the configured remotes |
| CiUpdate.RepositoryReconciled | ci/update-nixpkgs.py:76-94 | afterwards every remote has its URL and every served branch is fetched, and a second call changes nothing |
| CiUpdate.RebaseNixpkgs | ci/update-nixpkgs.py:99-155 | the repository steps reach the specification `CiRebase`: dirty check, materialisation, merge-base test, rebase without abort, comparison with yesterday, forced push, result |
| CiUpdate.DirtyRaises | ci/update-nixpkgs.py:106-107 | a dirty repository raises with the repository untouched |
| CiUpdate.OnBranchStays | ci/update-nixpkgs.py:117-153 | after materialisation HEAD stays on the integration branch and no other head moves |
| CiUpdate.StaysOnIntegrationBranch | ci/update-nixpkgs.py:109-153 | once materialised, the call ends on the integration branch with every other head where it was |
| CiUpdate.UpToDateMeansNothingDone | ci/update-nixpkgs.py:117-125 | `None` for "nothing to do" happens exactly when the upstream tip is a merge base, and then the repository is as materialisation left it |
| CiUpdate.ConflictLeavesRebaseInProgress | ci/update-nixpkgs.py:129-132 | from a consistent repository the outcome is a conflict exactly when the tree was clean, the branch was materialised, upstream resolved and was not merged, and the rebase oracle fails. Then `None` is returned with nothing pushed, heads as materialised, and the rebase still in progress (no abort) |
| CiUpdate.SameAsLastDayPushesNothing | ci/update-nixpkgs.py:135-144 | the push is skipped exactly when the rebase went through and `origin/<lastDay>` resolves to a commit with the same tree as the rebased tip; then nothing is pushed |
| CiUpdate.RebasedResult | ci/update-nixpkgs.py:128-153 | on success exactly one forced push of the integration branch at the rebased tip; the result holds the upstream tip, `origin/<branch>`, and HEAD before and after |
| CiUpdate.PushesOnlyOnSuccess | ci/update-nixpkgs.py:146-153 | at most one push, and only on success or when the final `origin/<branch>` lookup raises |
| CiUpdate.ConflictBlocksNextPlatform | ci/update-nixpkgs.py:129-132 | as written, after a conflict the next platform version in the same run reconciles its remotes (any remotes, any server) and then raises "Repository is dirty!" |
| CiUpdate.AbortingLeavesClean | update-nixpkgs.py:96-102 | with the abort every outcome is the same, and a conflict leaves the clean materialised repository |
| CiUpdate.RebaseNixpkgsAborting | ci/update-nixpkgs.py:129-132 | the corrected repository steps reach `CiRebaseAborting` |
| CiUpdate.Stamp | ci/update-nixpkgs.py:189 | `strftime('%Y%m%d_%H%M%S')` is fifteen characters |
| CiUpdate.ChangelogPath | ci/update-nixpkgs.py:187-190 | the fragment path is `changelog.d/<stamp>_nixpkgs-auto-update-<target>.md`, of length 51 plus the target's |
| CiUpdate.PaddedInjective | ci/update-nixpkgs.py:189 | different values pad to different digit strings |
| CiUpdate.StampInjective | ci/update-nixpkgs.py:189 | different valid timestamps give different stamps |
| CiUpdate.ChangelogPathsDistinct | ci/update-nixpkgs.py:187-206 | a fragment path determines its timestamp and target, and four distinct paths are staged |
| CiUpdate.UpdateFcNixos | ci/update-nixpkgs.py:158-208 | the repository steps reach the specification `FcUpdate`: materialise, the nix steps, write, stage, commit, forced push |
| CiUpdate.FcUpdateCommitsAndPushes | ci/update-nixpkgs.py:187-208 | on success one commit of the four paths with message `Auto update nixpkgs to <sha>` on the integration branch, one forced push of it, and the fragment written with both hashes |
| CiUpdate.NixFailureChangesNothing | ci/update-nixpkgs.py:174-185 | a failing nix step raises before anything is written, staged, committed or pushed |
| ManualUpdate.AllWanted | update-nixpkgs.py:70-76 | each remote of the manual script wants every branch its URL serves |
| ManualUpdate.FetchAllReconciles | update-nixpkgs.py:70-76 | the remotes loop fails exactly when some URL is unreachable, naming the first such remote; on success it is the same reconciliation as the daily job's |
| ManualUpdate.FetchAllFailsIff | update-nixpkgs.py:76 | an uncaught fetch failure happens exactly when some URL is unreachable |
| ManualUpdate.FetchAllSucceeds | update-nixpkgs.py:70-76 | with every URL reachable, the loop is `Reconcile` with all served branches wanted |
| ManualUpdate.FetchAllFirstFailure | update-nixpkgs.py:70-76 | the failure names the first remote whose URL is unreachable |
| ManualUpdate.ScriptRemotesReconciled | update-nixpkgs.py:70-74 | with both URLs reachable, `origin` and `upstream` map to their URLs, everything served is fetched, and a second run changes nothing |
| ManualUpdate.NixpkgsRepository | update-nixpkgs.py:64-78 | a missing directory raises in `clone_from`; an existing checkout goes through the remotes loop as specified |
| ManualUpdate.RebaseNixpkgs | update-nixpkgs.py:81-113 | the repository steps reach the specification `ManualRebase`, which aborts on conflict and pushes the current branch with lease |
| ManualUpdate.DirtyRaises | update-nixpkgs.py:82-83 | a dirty repository raises before any branch operation |
| ManualUpdate.OnBranchStays | update-nixpkgs.py:91-111 | after materialisation HEAD stays on the integration branch and no other head moves |
| ManualUpdate.StaysOnIntegrationBranch | update-nixpkgs.py:85-111 | once materialised, the call ends on the integration branch with every other head where it was |
| ManualUpdate.UpToDateMeansNothingDone | update-nixpkgs.py:91-93 | `None` for "nothing to do" happens exactly when the upstream tip is a merge base, with nothing rebased or pushed |
| ManualUpdate.ConflictAborted | update-nixpkgs.py:96-102 | from a consistent repository the outcome is a conflict exactly when the tree was clean, the branch was materialised, upstream resolved and was not merged, and the rebase oracle fails. The conflict is aborted: no rebase in progress, a clean tree, nothing pushed, the repository as materialised; from a consistent state the abort never raises |
| ManualUpdate.PublishOutcome | update-nixpkgs.py:104-111 | the push and the result lookup end in a push failure, a failed lookup or a result, with at most one push |
| ManualUpdate.RebasedResult | update-nixpkgs.py:95-111 | on success exactly one `--force-with-lease` push of the integration branch at the rebased tip; the result holds upstream tip, `origin/<branch>`, HEAD before and after |
| ManualUpdate.PushesOnlyOnSuccess | update-nixpkgs.py:104-111 | at most one push, and only on success or when the final lookup raises |
| Hosting.Without | ci/update-nixpkgs-merged.py:85 | deleting a name removes exactly that name and keeps the order of the others |
| Hosting.WithoutAbsent | ci/update-nixpkgs-merged.py:62-64 | deleting an absent name changes nothing |
| Hosting.WithoutConcat | ci/update-nixpkgs-merged.py:85 | deleting from two listings joined is deleting from each |
| Hosting.DistinctWithout | ci/update-nixpkgs-merged.py:62-64 | a listing without repeats keeps that property after a deletion |
| Hosting.WithoutDistinct | ci/update-nixpkgs-merged.py:85 | in a listing without repeats, deleting a branch removes exactly its one entry |
| Hosting.Host.DeleteBranch | ci/update-nixpkgs-merged.py:62-64 | `get_git_ref("heads/<b>").delete()` succeeds exactly when the branch exists, and then removes it; on failure nothing changes |
| Hosting.PullRequest.Comment | ci/update-nixpkgs-merged.py:122-124 | a comment is appended to the pull request |
| MergedUpdate.PlanMerge | ci/update-nixpkgs-merged.py:108-110 | the version exists exactly when the base branch has a `-`; the target is `nixos-<version>` and the integration branch is the head branch |
| MergedUpdate.PlanOfDailyPullRequest | ci/update-nixpkgs-merged.py:108-110 | a pull request the daily job opened gives back its version, `nixos-<v>` and today's branch, whose date is today |
| MergedUpdate.NixpkgsRepository | ci/update-nixpkgs-merged.py:19-39 | as written: set origin's URL, then one fetch whose refspec is the branches joined by a space |
| MergedUpdate.JoinedRefspecFails | ci/update-nixpkgs-merged.py:35-37 | with two or more branches that fetch always raises |
| MergedUpdate.NixpkgsRepositoryPerBranch | ci/update-nixpkgs-merged.py:19-39 | corrected: fetch each listed branch, raising exactly when one is not served; otherwise the reconciliation of origin with those branches |
| MergedUpdate.FetchEachOrRaise | ci/update-nixpkgs-merged.py:35-37 | the corrected per-branch fetch loop succeeds exactly when every branch is served, and then adds exactly their tracking branches |
| MergedUpdate.PerBranchFetchSettles | ci/update-nixpkgs-merged.py:28-37 | after the corrected fetch origin has its URL and every listed branch it serves is fetched |
| MergedUpdate.RebaseNixpkgs | ci/update-nixpkgs-merged.py:42-65 | the repository and host steps reach the specification `MergedRebase` |
| MergedUpdate.DirtyRaises | ci/update-nixpkgs-merged.py:49-50 | a dirty repository raises before any rebase, with repository and host untouched |
| MergedUpdate.FirstConflictEscapes | ci/update-nixpkgs-merged.py:52 | a conflict on the first rebase escapes unaborted, with the rebase in progress, nothing pushed and no branch deleted |
| MergedUpdate.SecondConflictAborted | ci/update-nixpkgs-merged.py:53-59 | `False` exactly on a conflict in the second rebase, which is aborted; nothing pushed, nothing deleted |
| MergedUpdate.TrueMeansPushedAndDeleted | ci/update-nixpkgs-merged.py:61-65 | `True` means both rebases completed, the current branch was pushed with lease at its tip, and the host had the integration branch and now has exactly the others |
| MergedUpdate.HostChangesOnlyOnTrue | ci/update-nixpkgs-merged.py:61-65 | a host branch is deleted only on `True`; a push happens only on `True` or when that deletion raises |
| MergedUpdate.VerdictOf | ci/update-nixpkgs-merged.py:77-85 | a branch is skipped exactly outside the namespace, raises exactly when in it without a readable date, and is deleted exactly when stale |
| MergedUpdate.SweepKeepsOthers | ci/update-nixpkgs-merged.py:77-79 | branches outside `nixpkgs-auto-update/` are never deleted, and nothing is added |
| MergedUpdate.SweepDeletesExactlyStale | ci/update-nixpkgs-merged.py:80-85 | when nothing raises, a branch is deleted if and only if its date is strictly before the merged branch's |
| MergedUpdate.SweepRaisesOnBadName | ci/update-nixpkgs-merged.py:80-82 | the sweep raises exactly when some namespaced branch has no readable date |
| MergedUpdate.SweepStopsAtBadName | ci/update-nixpkgs-merged.py:77-85 | on a raise, the branches before the bad name were swept, and it and every later branch are left |
| MergedUpdate.SweepHost | ci/update-nixpkgs-merged.py:77-85 | the inner loop over a host's listing, deleting through the API, reaches the specification `Sweep` |
| MergedUpdate.CleanupOldPrsAndBranches | ci/update-nixpkgs-merged.py:68-85 | reading the merged date and sweeping fc-nixos, then nixpkgs, reach the specification `Cleanup` |
| MergedUpdate.CleanupSameRuleOnBothHosts | ci/update-nixpkgs-merged.py:70-85 | when nothing raises, both hosts keep exactly their branches that are not stale |
| MergedUpdate.MergingTodaySweepsYesterday | ci/update-nixpkgs-merged.py:72-85 | merging today's branch makes yesterday's branch of any target stale and leaves today's branches alone |
| MergedUpdate.AfterMerge | ci/update-nixpkgs-merged.py:107-125 | the base branch decides version and target; the rebase runs; the comment and the cleanup happen only on `True` |

## Left out

- Git itself is not modelled. Clone, fetch with `filter="blob:none"`, merge-base computation, rebase and `diff-index` are oracles or parameters (`Oracles`, `Server`). A push records the tip and force mode; a lease rejection by the remote is not modelled.
- `Git.Repo.Push`: a push is taken to succeed whenever the remote and the branch exist. Remote-side rejections are not modelled.
- `ManualUpdate.RebaseNixpkgs`: `git push --force-with-lease` without arguments is modelled as pushing the current branch to `origin`. Git's `push.default` and upstream configuration are not modelled.
- `Git.Repo.IsDirty`: `is_dirty()` is the model's dirty flag. A conflicted rebase sets the flag; a clean checkout does not. Untracked files are ignored, as in GitPython's default.
- The GitHub REST API is not modelled. `get_repo`, `get_pull`, `get_branches` (taken as one complete snapshot, without pagination), `get_git_ref(...).delete()` and `create_issue_comment` become `Host` and `PullRequest` methods.
- `create_fc_nixos_pr` (ci/update-nixpkgs.py:211-227) only opens a pull request. It makes no decision, so it is not modelled.
- The nix subprocesses (`nix flake lock`, `buildVersionsJson`, `buildPackageVersionsJson`) are booleans in `NixResults`. The manual script's `update_fc_nixos` (update-nixpkgs.py:116-125) consists only of such calls and is not modelled.
- The wall clock is a parameter (`today`, `Timestamp`), and so is the new commit id of `git commit`. Argument parsing, logging, the `GH_TOKEN` lookup and the file-system check `path.exists` are left out; `existing: Option<Repo>` stands for that check.
- CiUpdate.PlanNames: ci/update-nixpkgs.py:260-263 reads `date.today()` twice. The model reads it once. If the job runs across midnight, yesterday's branch name can equal today's, and the "differ" clause does not cover that run.
- `existing: Option<Repo>` cannot express a directory that exists but is not a git repository. There `Repo(directory)` raises (ci/update-nixpkgs.py:71-72, update-nixpkgs.py:64-78); the model has no such case.
- `Dates.FromIsoFormat` accepts exactly `YYYY-MM-DD`, as Python before 3.11 does. The other ISO 8601 forms that Python 3.11 also accepts are not modelled.
- `CiUpdate.Stamp` assumes a four-digit year, as `%Y` gives for years 1000-9999. Years below 1000 are not modelled.
- `MergedUpdate.AfterMerge` models `main` as evidently meant: it passes the hosting client to `rebase_nixpkgs`. As written, `main` calls `rebase_nixpkgs` without its first argument (ci/update-nixpkgs-merged.py:117-121) and reads `args.nixpkgs_dir`, which is never declared (line 113); both raise before anything happens. `AfterMerge` also takes the checkout as it stands; the corrected `NixpkgsRepositoryPerBranch` gives that checkout.
- `MergedUpdate.CleanupOldPrsAndBranches`, `MergedUpdate.SweepHost` and `MergedUpdate.AfterMerge` require branch names within one host to be unique and the two hosts to be different objects. GitHub guarantees both.
- Closing pull requests when their branch is deleted is GitHub's doing, not the script's, and is not modelled.
- `ManualUpdate.NixpkgsRepository`: `Repo.clone_from(directory, origin)` passes its arguments in swapped order. As written it tries to clone from the missing directory, so the model gives `CloneFailed`; the intended clone is not modelled.

## Findings

| source | as written | input that shows it | evidently intended | confidence | as-written member | corrected member |
|---|---|---|---|---|---|---|
| ci/update-nixpkgs.py:129-132 | a failed `git rebase` returns `None` without `git rebase --abort`, leaving the conflicted rebase in progress and the tree dirty | `--platform-versions 24.05 24.11` where the rebase of 24.05 conflicts: the loop then calls `rebase_nixpkgs` for 24.11 on the same dirty checkout, which raises "Repository is dirty!" | abort the stopped rebase, as update-nixpkgs.py:100 and ci/update-nixpkgs-merged.py:57 do, so the next platform version is still updated | not executed; high that the second version is refused once the first conflicts | CiUpdate.ConflictBlocksNextPlatform | CiUpdate.AbortingLeavesClean |
| ci/update-nixpkgs-merged.py:35-37 | the branches are joined with a space into a single refspec and fetched once | `main` passes `[integration_branch, nixpkgs_target_branch]`, two names, so the refspec is `"<integration> nixos-<v>"`; no branch is named that, and git rejects it | fetch each listed branch, as ci/update-nixpkgs.py:83-91 does | not executed; high, since a ref name cannot contain a space | MergedUpdate.JoinedRefspecFails | MergedUpdate.NixpkgsRepositoryPerBranch |
