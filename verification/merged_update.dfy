/** The job run when an automatic update pull request was merged
    (`ci/update-nixpkgs-merged.py`): rebase the nixpkgs integration branch
    onto the release branch, push it, delete it on the nixpkgs host, comment
    on the pull request, and delete every older integration branch on both
    hosts. */
module MergedUpdate {
  import opened Wrappers
  import opened Text
  import opened Dates
  import opened Naming
  import opened Git
  import opened Remotes
  import opened Rebasing
  import opened Hosting

  // ----- Version and branch derivation (`main`) -----

  datatype MergePlan = MergePlan(version: string, integration: string, nixpkgsTarget: string)

  /** The platform version is the second `-`-component of the pull request's
      base branch, the integration branch is its head branch; `None` where
      the split has no second component and Python raises IndexError. */
  function PlanMerge(baseRef: string, headRef: string): (p: Option<MergePlan>)
    ensures p.Some? <==> '-' in baseRef
    ensures p.Some? ==> p.value.integration == headRef && p.value.nixpkgsTarget == NixosBranch(p.value.version)
  {
    match PlatformVersionOf(baseRef)
    case None => None
    case Some(v) => Some(MergePlan(v, headRef, NixosBranch(v)))
  }

  /** A pull request the daily job opened — base `fc-<v>-dev`, head today's
      integration branch — gives back `v`, `nixos-<v>` and that branch, whose
      date is today. */
  lemma PlanOfDailyPullRequest(version: string, today: Date)
    requires '-' !in version && '/' !in version && Valid(today)
    ensures var head := IntegrationBranch(FcDevBranch(version), IsoFormat(today));
      PlanMerge(FcDevBranch(version), head) == Some(MergePlan(version, head, NixosBranch(version))) &&
      BranchDate(head) == Some(today)
  {
    PlatformVersionRoundTrip(version);
    assert '/' !in FcDevBranch(version) by {
      assert FcDevBranch(version) == "fc-" + version + "-dev";
    }
    IntegrationBranchRoundTrip(FcDevBranch(version), today);
  }

  // ----- nixpkgs_repository -----

  /** The single `origin` remote set to its URL, as every variant does it. */
  function OriginConfigured(s: RepoState, origin: string): RepoState
  {
    WithView(s, Reconfigured(s.View(), "origin", origin))
  }

  /** `nixpkgs_repository` as written: one fetch whose refspec is the branch
      names joined by a space. The fetch raises unless that whole string
      names a branch the URL serves. */
  method NixpkgsRepository(existing: Option<Repo>, origin: string, branches: seq<string>, server: Server)
    returns (repo: Repo, failure: Option<Failure>)
    modifies if existing.Some? then {existing.value} else {}
    ensures existing.Some? ==> repo == existing.value
    ensures existing.None? ==> fresh(repo)
    ensures var c := OriginConfigured(if existing.Some? then old(existing.value.State()) else EmptyRepo, origin);
      repo.State() == AfterFetchBranch(c, "origin", Join(branches, " "), server) &&
      failure == if FetchBranchOk(c, "origin", Join(branches, " "), server) then None else Some(FetchFailed("origin"))
  {
    if existing.Some? {
      repo := existing.value;
    } else {
      repo := new Repo.Init();
    }
    Reconfigure(repo, "origin", origin);
    var ok := repo.FetchBranch("origin", Join(branches, " "), server);
    failure := if ok then None else Some(FetchFailed("origin"));
  }

  /** As written, asking for two or more branches always raises: the joined
      refspec contains a space, and no branch the URL serves does. */
  lemma JoinedRefspecFails(s: RepoState, origin: string, branches: seq<string>, server: Server)
    requires |branches| >= 2
    requires forall b :: b in Served(server, origin) ==> ' ' !in b
    ensures !FetchBranchOk(OriginConfigured(s, origin), "origin", Join(branches, " "), server)
  {
    JoinHasSeparator(branches, ' ');
  }

  /** Every listed branch fetched, raising on the first the URL does not
      serve. */
  method NixpkgsRepositoryPerBranch(existing: Option<Repo>, origin: string, branches: seq<string>, server: Server)
    returns (repo: Repo, failure: Option<Failure>)
    modifies if existing.Some? then {existing.value} else {}
    ensures existing.Some? ==> repo == existing.value
    ensures existing.None? ==> fresh(repo)
    ensures failure.None? <==> AllServed(branches, Served(server, origin))
    ensures var start := if existing.Some? then old(existing.value.State()) else EmptyRepo;
      failure.None? ==>
        repo.State() == WithView(start, Reconcile(start.View(), [Wanted("origin", origin, BranchSet(branches))], server))
  {
    if existing.Some? {
      repo := existing.value;
    } else {
      repo := new Repo.Init();
    }
    ghost var start := repo.State();
    Reconfigure(repo, "origin", origin);
    var ok := FetchEachOrRaise(repo, "origin", origin, branches, server);
    failure := if ok then None else Some(FetchFailed("origin"));
    ghost var w := Wanted("origin", origin, BranchSet(branches));
    assert [w][1..] == [];
    assert Reconcile(start.View(), [w], server) == Step(start.View(), w, server);
  }

  /** The corrected loop: fetch the listed branches one by one from a remote
      that has URL `url`, raising on the first the URL does not serve. */
  method FetchEachOrRaise(repo: Repo, name: string, url: string, branches: seq<string>, server: Server)
    returns (ok: bool)
    requires name in repo.remotes && repo.remotes[name] == url
    modifies repo
    ensures ok <==> AllServed(branches, Served(server, url))
    ensures ok ==>
      repo.State() == old(repo.State()).(refs := old(repo.refs) + TrackingRefs(name, BranchSet(branches), Served(server, url)))
  {
    ghost var c := repo.State();
    for j := 0 to |branches|
      invariant repo.State() == FetchedUpTo(c, name, url, branches, j, server)
      invariant AllServed(branches[..j], Served(server, url))
    {
      FetchOneMore(c, name, url, branches, j, server);
      ok := repo.FetchBranch(name, branches[j], server);
      ServedPrefix(branches, j, Served(server, url));
      if !ok {
        return;
      }
    }
    assert branches[..|branches|] == branches;
    ok := true;
  }

  /** Every listed branch is served. */
  predicate AllServed(branches: seq<string>, served: map<string, Commit>)
  {
    forall b :: b in branches ==> b in served
  }

  /** One more listed branch checked: all served so far and this one too,
      or the whole list is not served. */
  lemma ServedPrefix(branches: seq<string>, j: int, served: map<string, Commit>)
    requires 0 <= j < |branches|
    ensures AllServed(branches[..j], served) && branches[j] in served ==> AllServed(branches[..j + 1], served)
    ensures branches[j] !in served ==> !AllServed(branches, served)
  {
    assert branches[..j + 1] == branches[..j] + [branches[j]];
    assert branches[j] in branches;
  }

  /** Fetching branch by branch succeeds whenever the URL serves every
      listed branch, whatever their number, and then `origin` has its URL
      and every listed branch is fetched. */
  lemma PerBranchFetchSettles(v: RemoteView, origin: string, branches: seq<string>, server: Server)
    ensures var w := Wanted("origin", origin, BranchSet(branches));
      Holds(Reconcile(v, [w], server), w, server)
  {
    var w := Wanted("origin", origin, BranchSet(branches));
    assert '/' !in "origin";
    assert WellNamed([w]);
    ReconcileSettles(v, [w], server);
  }

  // ----- rebase_nixpkgs -----

  /** How the Python function ends: an exception or a boolean. */
  datatype Answer = Threw(failure: Failure) | Returned(value: bool)

  /** The repository, the nixpkgs host's branches and the answer after
      `rebase_nixpkgs`. */
  datatype MergedRun = MergedRun(state: RepoState, hostBranches: seq<string>, answer: Answer)

  /** The repository part of `rebase_nixpkgs`: refuse a dirty tree, rebase
      onto the target (a failure escapes, leaving any conflicted rebase in
      progress), rebase onto the integration branch (a failure is aborted and
      answers `False`), push with `--force-with-lease`. `Returned(true)` here
      means "pushed"; deleting the branch on the host follows. */
  function MergedRebaseRepo(s: RepoState, target: string, integration: string, git: Oracles): Run<Answer>
  {
    if s.dirty then Run(s, Threw(DirtyRepository))
    else
      var r1 := AfterRebase(s, target, git);
      if !RebaseStepOf(s, target, git).Replayed? then Run(r1, Threw(RebaseFailed))
      else
        var r2 := AfterRebase(r1, integration, git);
        if !RebaseStepOf(r1, integration, git).Replayed? then
          if r2.rebaseInProgress then Run(AfterRebaseAbort(r2), Returned(false))
          else Run(r2, Threw(AbortFailed))
        else if !PushOk(r2, "origin", r2.current) then Run(r2, Threw(PushFailed))
        else Run(AfterPush(r2, "origin", r2.current, ForceWithLease), Returned(true))
  }

  /** All of `rebase_nixpkgs`: after a push, `heads/<integration>` is deleted
      on the nixpkgs host, which raises when the host has no such branch. */
  function MergedRebase(s: RepoState, hostBranches: seq<string>, target: string, integration: string, git: Oracles): MergedRun
  {
    var run := MergedRebaseRepo(s, target, integration, git);
    if run.outcome != Returned(true) then MergedRun(run.state, hostBranches, run.outcome)
    else if integration !in hostBranches then MergedRun(run.state, hostBranches, Threw(DeleteFailed(integration)))
    else MergedRun(run.state, Without(hostBranches, integration), Returned(true))
  }

  method RebaseNixpkgs(nixpkgsHost: Host, repo: Repo, target: string, integration: string, git: Oracles)
    returns (answer: Answer)
    modifies nixpkgsHost, repo
    ensures MergedRun(repo.State(), nixpkgsHost.branches, answer) ==
            MergedRebase(old(repo.State()), old(nixpkgsHost.branches), target, integration, git)
  {
    var dirty := repo.IsDirty();
    if dirty {
      return Threw(DirtyRepository);
    }
    var first := repo.Rebase(target, git);
    if !first.Replayed? {
      return Threw(RebaseFailed);
    }
    var second := repo.Rebase(integration, git);
    if !second.Replayed? {
      var aborted := repo.RebaseAbort();
      if !aborted {
        return Threw(AbortFailed);
      }
      return Returned(false);
    }
    var pushed := repo.Push("origin", repo.current, ForceWithLease);
    if !pushed {
      return Threw(PushFailed);
    }
    var deleted := nixpkgsHost.DeleteBranch(integration);
    if !deleted {
      return Threw(DeleteFailed(integration));
    }
    return Returned(true);
  }

  /** A dirty repository raises before any rebase; nothing changes. */
  lemma DirtyRaises(s: RepoState, hostBranches: seq<string>, target: string, integration: string, git: Oracles)
    requires s.dirty
    ensures MergedRebase(s, hostBranches, target, integration, git) == MergedRun(s, hostBranches, Threw(DirtyRepository))
  {
  }

  /** A conflict on the first rebase is not aborted: it escapes as an
      exception with the rebase still in progress, nothing pushed and no
      branch deleted. */
  lemma FirstConflictEscapes(s: RepoState, hostBranches: seq<string>, target: string, integration: string, git: Oracles)
    requires !s.dirty && RebaseStepOf(s, target, git).Conflicted?
    ensures var run := MergedRebase(s, hostBranches, target, integration, git);
      run.answer == Threw(RebaseFailed) && run.state.rebaseInProgress && run.state.dirty &&
      run.state.pushes == s.pushes && run.hostBranches == hostBranches
  {
  }

  /** `False` comes exactly from a conflict on the second rebase, which is
      aborted: the repository is as the first rebase left it, with no rebase
      in progress, nothing pushed and no branch deleted. */
  lemma SecondConflictAborted(s: RepoState, hostBranches: seq<string>, target: string, integration: string, git: Oracles)
    ensures var run := MergedRebase(s, hostBranches, target, integration, git);
      var r1 := AfterRebase(s, target, git);
      run.answer == Returned(false) <==>
        !s.dirty && RebaseStepOf(s, target, git).Replayed? && RebaseStepOf(r1, integration, git).Conflicted?
    ensures var run := MergedRebase(s, hostBranches, target, integration, git);
      run.answer == Returned(false) ==>
        run.state == AfterRebase(s, target, git) && !run.state.rebaseInProgress &&
        run.state.pushes == s.pushes && run.hostBranches == hostBranches
  {
  }

  /** `True` means both rebases completed, the current branch was pushed to
      origin with `--force-with-lease` at its rebased tip, and the host had
      the integration branch and now has exactly the others. */
  lemma TrueMeansPushedAndDeleted(s: RepoState, hostBranches: seq<string>, target: string, integration: string, git: Oracles)
    requires MergedRebase(s, hostBranches, target, integration, git).answer == Returned(true)
    ensures var run := MergedRebase(s, hostBranches, target, integration, git);
      var r1 := AfterRebase(s, target, git);
      RebaseStepOf(s, target, git).Replayed? && RebaseStepOf(r1, integration, git).Replayed? &&
      run.state.pushes == s.pushes + [PushRecord("origin", s.current, run.state.heads[s.current], ForceWithLease)] &&
      run.state.heads[s.current] == RebaseStepOf(r1, integration, git).tip &&
      integration in hostBranches &&
      (forall b :: b in run.hostBranches <==> b in hostBranches && b != integration)
  {
  }

  /** A branch is deleted on the host only when the answer is `True`, and
      something is pushed only on `True` or when that deletion raises. */
  lemma HostChangesOnlyOnTrue(s: RepoState, hostBranches: seq<string>, target: string, integration: string, git: Oracles)
    ensures var run := MergedRebase(s, hostBranches, target, integration, git);
      (run.hostBranches != hostBranches ==> run.answer == Returned(true)) &&
      (run.state.pushes != s.pushes ==> run.answer == Returned(true) || run.answer == Threw(DeleteFailed(integration)))
  {
  }

  // ----- cleanup_old_prs_and_branches -----

  /** A branch cleanup deletes: an integration branch whose date is strictly
      before the merged branch's. */
  predicate Stale(name: string, merged: Date)
  {
    IsIntegrationBranch(name) && BranchDate(name).Some? && Before(BranchDate(name).value, merged)
  }

  /** The branches left in one repository and the name whose date could not
      be read, if the sweep raised on one. */
  datatype SweepResult = SweepResult(remaining: seq<string>, failed: Option<string>)

  /** What the loop body does with one listed branch: skip a branch outside
      the namespace, raise on one whose date cannot be read, delete a stale
      one, keep the rest. */
  datatype Verdict = Skip | Unreadable | Delete | Keep

  function VerdictOf(name: string, merged: Date): (v: Verdict)
    ensures v == Skip <==> !IsIntegrationBranch(name)
    ensures v == Unreadable <==> IsIntegrationBranch(name) && BranchDate(name).None?
    ensures v == Delete <==> Stale(name, merged)
  {
    if !IsIntegrationBranch(name) then Skip
    else match BranchDate(name)
      case None => Unreadable
      case Some(d) => if Before(d, merged) then Delete else Keep
  }

  /** The inner loop over one repository's branches, in listing order: skip
      other branches, delete stale ones, and raise on the first integration
      branch without a date at index 2 — the branches listed from it on are
      not looked at. */
  function Sweep(listing: seq<string>, merged: Date): SweepResult
  {
    if listing == [] then SweepResult([], None)
    else
      var name := listing[0];
      match VerdictOf(name, merged)
      case Unreadable => SweepResult(listing, Some(name))
      case Delete => Sweep(listing[1..], merged)
      case _ =>
        var rest := Sweep(listing[1..], merged);
        SweepResult([name] + rest.remaining, rest.failed)
  }

  /** Branches outside the `nixpkgs-auto-update/` namespace are never
      deleted, and nothing is ever added. */
  lemma {:induction false} SweepKeepsOthers(listing: seq<string>, merged: Date)
    ensures var r := Sweep(listing, merged);
      (forall x :: x in listing && !IsIntegrationBranch(x) ==> x in r.remaining) &&
      (forall x :: x in r.remaining ==> x in listing)
  {
    if listing != [] {
      SweepKeepsOthers(listing[1..], merged);
    }
  }

  /** When no name raises, a listed branch is deleted if and only if it is
      an integration branch dated strictly before the merged branch:
      branches of the same day or later stay. */
  lemma {:induction false} SweepDeletesExactlyStale(listing: seq<string>, merged: Date)
    requires Sweep(listing, merged).failed.None?
    ensures forall x :: x in Sweep(listing, merged).remaining <==> x in listing && !Stale(x, merged)
  {
    if listing != [] {
      SweepDeletesExactlyStale(listing[1..], merged);
    }
  }

  /** The sweep raises if and only if some integration branch has no
      readable date. */
  lemma {:induction false} SweepRaisesOnBadName(listing: seq<string>, merged: Date)
    ensures Sweep(listing, merged).failed.None? <==>
            forall x :: x in listing && IsIntegrationBranch(x) ==> BranchDate(x).Some?
  {
    if listing != [] {
      SweepRaisesOnBadName(listing[1..], merged);
      assert listing == [listing[0]] + listing[1..];
    }
  }

  /** One step of the sweep seen from a position in the listing. */
  lemma SweepAt(listing: seq<string>, i: int, merged: Date)
    requires 0 <= i < |listing|
    ensures var name := listing[i];
      var rest := Sweep(listing[i + 1..], merged);
      Sweep(listing[i..], merged) ==
        match VerdictOf(name, merged)
        case Unreadable => SweepResult(listing[i..], Some(name))
        case Delete => rest
        case _ => SweepResult([name] + rest.remaining, rest.failed)
  {
    assert listing[i..][0] == listing[i];
    assert listing[i..][1..] == listing[i + 1..];
  }

  /** When the sweep raises, it raised on an integration branch without a
      readable date, every branch before it was swept as if the listing ended
      there, and it and every branch after it are left. */
  lemma {:induction false} SweepStopsAtBadName(listing: seq<string>, merged: Date)
    requires Sweep(listing, merged).failed.Some?
    ensures var r := Sweep(listing, merged);
      exists i :: 0 <= i < |listing| && listing[i] == r.failed.value &&
        VerdictOf(listing[i], merged) == Unreadable &&
        Sweep(listing[..i], merged).failed.None? &&
        r.remaining == Sweep(listing[..i], merged).remaining + listing[i..]
  {
    var name := listing[0];
    if VerdictOf(name, merged) == Unreadable {
      assert listing[..0] == [];
      assert listing[0..] == listing;
    } else {
      var tail := listing[1..];
      SweepStopsAtBadName(tail, merged);
      var r := Sweep(tail, merged);
      var i :| 0 <= i < |tail| && tail[i] == r.failed.value &&
               VerdictOf(tail[i], merged) == Unreadable &&
               Sweep(tail[..i], merged).failed.None? &&
               r.remaining == Sweep(tail[..i], merged).remaining + tail[i..];
      StopsAtBadNameStep(listing, merged, i);
    }
  }

  lemma StopsAtBadNameStep(listing: seq<string>, merged: Date, i: int)
    requires |listing| > 0 && VerdictOf(listing[0], merged) != Unreadable
    requires 0 <= i < |listing| - 1
    requires Sweep(listing[1..], merged).remaining == Sweep(listing[1..][..i], merged).remaining + listing[1..][i..]
    requires Sweep(listing[1..][..i], merged).failed.None?
    ensures Sweep(listing[..i + 1], merged).failed.None?
    ensures Sweep(listing, merged).remaining == Sweep(listing[..i + 1], merged).remaining + listing[i + 1..]
  {
    var name, tail := listing[0], listing[1..];
    var head := listing[..i + 1];
    assert head[0] == name && head[1..] == tail[..i];
    assert listing[i + 1..] == tail[i..];
    var a, b := Sweep(tail[..i], merged).remaining, tail[i..];
    if VerdictOf(name, merged) != Delete {
      assert Sweep(head, merged).remaining == [name] + a;
      assert Sweep(listing, merged).remaining == [name] + (a + b);
      assert [name] + (a + b) == ([name] + a) + b;
    }
  }

  /** Both hosts after the cleanup, and the exception that ended it, if
      any. */
  datatype CleanupRun = CleanupRun(fcNixos: seq<string>, nixpkgs: seq<string>, failure: Option<Failure>)

  /** `cleanup_old_prs_and_branches`: read the merged branch's date (which
      may raise), then sweep fc-nixos and, unless that raised, nixpkgs, by
      the same rule. */
  function Cleanup(fcNixos: seq<string>, nixpkgs: seq<string>, mergedBranch: string): CleanupRun
  {
    match BranchDate(mergedBranch)
    case None => CleanupRun(fcNixos, nixpkgs, Some(BadBranchName(mergedBranch)))
    case Some(merged) =>
      var first := Sweep(fcNixos, merged);
      if first.failed.Some? then CleanupRun(first.remaining, nixpkgs, Some(BadBranchName(first.failed.value)))
      else
        var second := Sweep(nixpkgs, merged);
        CleanupRun(first.remaining, second.remaining,
                   if second.failed.None? then None else Some(BadBranchName(second.failed.value)))
  }

  /** One repository's inner loop, deleting through the hosting API. */
  method SweepHost(host: Host, merged: Date) returns (failed: Option<string>)
    requires Distinct(host.branches)
    modifies host
    ensures SweepResult(host.branches, failed) == Sweep(old(host.branches), merged)
  {
    var listing := host.branches;
    ghost var kept: seq<string> := [];
    for i := 0 to |listing|
      invariant Distinct(listing)
      invariant host.branches == kept + listing[i..]
      invariant SweptUpTo(listing, i, kept, merged)
    {
      var name := listing[i];
      var verdict := VerdictOf(name, merged);
      if verdict == Unreadable {
        UnreadableStep(listing, i, kept, merged);
        return Some(name);
      } else if verdict == Delete {
        DeleteStep(listing, i, kept, merged);
        var _ := host.DeleteBranch(name);
      } else {
        KeepStepAt(listing, i, kept, merged);
        kept := kept + [name];
      }
    }
    return None;
  }

  /** The loop invariant of `SweepHost`, kept by one step. */
  ghost predicate SweptUpTo(listing: seq<string>, i: int, kept: seq<string>, merged: Date)
    requires 0 <= i <= |listing|
  {
    && Sweep(listing, merged).remaining == kept + Sweep(listing[i..], merged).remaining
    && Sweep(listing, merged).failed == Sweep(listing[i..], merged).failed
    && (forall x :: x in kept ==> x in listing[..i])
  }

  lemma UnreadableStep(listing: seq<string>, i: int, kept: seq<string>, merged: Date)
    requires 0 <= i < |listing| && SweptUpTo(listing, i, kept, merged)
    requires VerdictOf(listing[i], merged) == Unreadable
    ensures Sweep(listing, merged) == SweepResult(kept + listing[i..], Some(listing[i]))
  {
    SweepAt(listing, i, merged);
  }

  lemma DeleteStep(listing: seq<string>, i: int, kept: seq<string>, merged: Date)
    requires Distinct(listing) && 0 <= i < |listing| && SweptUpTo(listing, i, kept, merged)
    requires VerdictOf(listing[i], merged) == Delete
    ensures Without(kept + listing[i..], listing[i]) == kept + listing[i + 1..]
    ensures SweptUpTo(listing, i + 1, kept, merged)
  {
    SweepAt(listing, i, merged);
    assert listing[..i + 1] == listing[..i] + [listing[i]];
    DeleteOne(listing, i, kept);
  }

  /** Deleting the branch at `i` from what is left of the listing. */
  lemma DeleteOne(listing: seq<string>, i: int, kept: seq<string>)
    requires Distinct(listing) && 0 <= i < |listing|
    requires forall x :: x in kept ==> x in listing[..i]
    ensures Without(kept + listing[i..], listing[i]) == kept + listing[i + 1..]
  {
    var name := listing[i];
    assert listing[i..] == [name] + listing[i + 1..];
    DistinctAt(listing, i, kept);
    WithoutDistinct(kept, name, listing[i + 1..]);
    assert kept + listing[i..] == kept + [name] + listing[i + 1..];
  }

  lemma KeepStepAt(listing: seq<string>, i: int, kept: seq<string>, merged: Date)
    requires 0 <= i < |listing| && SweptUpTo(listing, i, kept, merged)
    requires VerdictOf(listing[i], merged) in {Skip, Keep}
    ensures kept + listing[i..] == (kept + [listing[i]]) + listing[i + 1..]
    ensures SweptUpTo(listing, i + 1, kept + [listing[i]], merged)
  {
    var name := listing[i];
    SweepAt(listing, i, merged);
    assert listing[i..] == [name] + listing[i + 1..];
    assert listing[..i + 1] == listing[..i] + [name];
    var swept := Sweep(listing[i + 1..], merged).remaining;
    assert kept + ([name] + swept) == (kept + [name]) + swept;
  }

  method CleanupOldPrsAndBranches(fcNixos: Host, nixpkgs: Host, mergedBranch: string) returns (failure: Option<Failure>)
    requires fcNixos != nixpkgs
    requires Distinct(fcNixos.branches) && Distinct(nixpkgs.branches)
    modifies fcNixos, nixpkgs
    ensures CleanupRun(fcNixos.branches, nixpkgs.branches, failure) ==
            Cleanup(old(fcNixos.branches), old(nixpkgs.branches), mergedBranch)
  {
    var merged := BranchDate(mergedBranch);
    if merged.None? {
      return Some(BadBranchName(mergedBranch));
    }
    var failed := SweepHost(fcNixos, merged.value);
    if failed.Some? {
      return Some(BadBranchName(failed.value));
    }
    failed := SweepHost(nixpkgs, merged.value);
    failure := if failed.None? then None else Some(BadBranchName(failed.value));
  }

  /** When nothing raises, both hosts are swept by the same rule: a branch
      survives exactly when it is not an integration branch dated before the
      merged branch. */
  lemma CleanupSameRuleOnBothHosts(fcNixos: seq<string>, nixpkgs: seq<string>, mergedBranch: string)
    requires Cleanup(fcNixos, nixpkgs, mergedBranch).failure.None?
    ensures var c := Cleanup(fcNixos, nixpkgs, mergedBranch);
      var merged := BranchDate(mergedBranch).value;
      (forall x :: x in c.fcNixos <==> x in fcNixos && !Stale(x, merged)) &&
      (forall x :: x in c.nixpkgs <==> x in nixpkgs && !Stale(x, merged))
  {
    var merged := BranchDate(mergedBranch).value;
    SweepDeletesExactlyStale(fcNixos, merged);
    SweepDeletesExactlyStale(nixpkgs, merged);
  }

  /** Merging today's integration branch makes yesterday's integration
      branch of any target stale, and leaves today's branches — the merged
      one included — alone. */
  lemma MergingTodaySweepsYesterday(mergedTarget: string, target: string, today: Date)
    requires Valid(today) && Yesterday(today).Some? && '/' !in mergedTarget && '/' !in target
    ensures var merged := BranchDate(IntegrationBranch(mergedTarget, IsoFormat(today)));
      merged == Some(today) &&
      Stale(IntegrationBranch(target, IsoFormat(Yesterday(today).value)), merged.value) &&
      !Stale(IntegrationBranch(target, IsoFormat(today)), merged.value)
  {
    IntegrationBranchRoundTrip(mergedTarget, today);
    IntegrationBranchRoundTrip(target, today);
    IntegrationBranchRoundTrip(target, Yesterday(today).value);
  }

  // ----- After the merge (`main`) -----

  /** Lines 117-125 of `main`, with `rebase_nixpkgs` given its hosting
      client: rebase, and only on `True` comment on the pull request and
      clean up. A base branch without `-` raises before anything happens. */
  method AfterMerge(pr: PullRequest, fcNixos: Host, nixpkgsHost: Host, repo: Repo, git: Oracles)
    returns (failure: Option<Failure>)
    requires fcNixos != nixpkgsHost
    requires Distinct(fcNixos.branches) && Distinct(nixpkgsHost.branches)
    modifies pr, fcNixos, nixpkgsHost, repo
    ensures PlanMerge(pr.baseRef, pr.headRef).None? ==>
      failure == Some(BadBranchName(pr.baseRef)) &&
      repo.State() == old(repo.State()) && pr.comments == old(pr.comments) &&
      fcNixos.branches == old(fcNixos.branches) && nixpkgsHost.branches == old(nixpkgsHost.branches)
    ensures PlanMerge(pr.baseRef, pr.headRef).Some? ==>
      var plan := PlanMerge(pr.baseRef, pr.headRef).value;
      var run := MergedRebase(old(repo.State()), old(nixpkgsHost.branches), plan.nixpkgsTarget, plan.integration, git);
      repo.State() == run.state &&
      (run.answer != Returned(true) ==>
         pr.comments == old(pr.comments) && fcNixos.branches == old(fcNixos.branches) &&
         nixpkgsHost.branches == run.hostBranches &&
         failure == if run.answer.Threw? then Some(run.answer.failure) else None) &&
      (run.answer == Returned(true) ==>
         pr.comments == old(pr.comments) + ["Rebased nixpkgs `" + plan.nixpkgsTarget + "` branch successfully."] &&
         CleanupRun(fcNixos.branches, nixpkgsHost.branches, failure) ==
           Cleanup(old(fcNixos.branches), run.hostBranches, plan.integration))
  {
    var plan := PlanMerge(pr.baseRef, pr.headRef);
    if plan.None? {
      return Some(BadBranchName(pr.baseRef));
    }
    var target, integration := plan.value.nixpkgsTarget, plan.value.integration;
    var answer := RebaseNixpkgs(nixpkgsHost, repo, target, integration, git);
    match answer
    case Threw(f) =>
      failure := Some(f);
    case Returned(ok) =>
      if ok {
        pr.Comment("Rebased nixpkgs `" + target + "` branch successfully.");
        DistinctWithout(old(nixpkgsHost.branches), integration);
        failure := CleanupOldPrsAndBranches(fcNixos, nixpkgsHost, integration);
      } else {
        failure := None;
      }
  }
}
