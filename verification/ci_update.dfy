/** The daily job (`ci/update-nixpkgs.py`): for each platform version it
    brings the nixpkgs checkout's remotes in line, rebases today's
    integration branch onto the upstream release branch, pushes it unless it
    equals yesterday's, and then commits the new nixpkgs pin to fc-nixos. */
module CiUpdate {
  import opened Wrappers
  import opened Text
  import opened Dates
  import opened Naming
  import opened Git
  import opened Remotes
  import opened Rebasing

  const VersionsPath := "release/versions.json"
  const PackageVersionsPath := "release/package-versions.json"
  const ChangelogDir := "changelog.d"
  const FlakeLock := "flake.lock"

  // ----- Names and dates of one platform version (`main`) -----

  /** What `main` derives for one platform version. */
  datatype PlatformPlan = PlatformPlan(
    nixpkgsTarget: string,
    fcTarget: string,
    integration: string,
    lastDay: string,
    remotes: RemoteSpecs)

  /** Branch names and remotes for `version` on day `today`; `None` where
      computing yesterday overflows (today is 0001-01-01). */
  function PlanPlatform(version: string, today: Date, upstreamUrl: string, originUrl: string): (p: Option<PlatformPlan>)
    requires Valid(today)
    ensures p.Some? <==> Yesterday(today).Some?
  {
    match Yesterday(today)
    case None => None
    case Some(yesterday) =>
      var nixpkgs := NixosBranch(version);
      var fc := FcDevBranch(version);
      var lastDay := IntegrationBranch(fc, IsoFormat(yesterday));
      Some(PlatformPlan(nixpkgs, fc, IntegrationBranch(fc, IsoFormat(today)), lastDay,
        [("upstream", Remote(upstreamUrl, [nixpkgs])),
         ("origin", Remote(originUrl, [nixpkgs, lastDay]))]))
  }

  /** For a version without `/`, today's and yesterday's integration branches
      carry today's and yesterday's dates at index 2, both for the same fc-nixos
      target, and yesterday's is strictly older; for a version without `-` the
      merge job reads the same version back out of the fc-nixos branch. The
      two remotes are distinct names without `/`. */
  lemma PlanNames(version: string, today: Date, upstreamUrl: string, originUrl: string)
    requires Valid(today) && Yesterday(today).Some? && '/' !in version
    ensures var p := PlanPlatform(version, today, upstreamUrl, originUrl).value;
      BranchDate(p.integration) == Some(today) &&
      BranchDate(p.lastDay) == Yesterday(today) &&
      Before(BranchDate(p.lastDay).value, BranchDate(p.integration).value) &&
      IsIntegrationBranch(p.integration) && IsIntegrationBranch(p.lastDay) &&
      Split(p.integration, '/')[1] == p.fcTarget == Split(p.lastDay, '/')[1] &&
      p.integration != p.lastDay
  {
    var p := PlanPlatform(version, today, upstreamUrl, originUrl).value;
    var y := Yesterday(today).value;
    assert p.fcTarget == "fc-" + version + "-dev";
    assert '/' !in p.fcTarget;
    assert p.integration == IntegrationBranch(p.fcTarget, IsoFormat(today));
    assert p.lastDay == IntegrationBranch(p.fcTarget, IsoFormat(y));
    IntegrationBranchRoundTrip(p.fcTarget, today);
    IntegrationBranchRoundTrip(p.fcTarget, y);
  }

  /** For a version without `-`, the merge job reads the same version back
      out of the fc-nixos target and derives the same nixpkgs branch; the two
      remotes are distinct names without `/` and fetch the release branch
      from both, and yesterday's branch from origin. */
  lemma PlanRemotes(version: string, today: Date, upstreamUrl: string, originUrl: string)
    requires Valid(today) && Yesterday(today).Some?
    ensures var p := PlanPlatform(version, today, upstreamUrl, originUrl).value;
      WellNamed(WantedOf(p.remotes)) &&
      WantedOf(p.remotes) == [Wanted("upstream", upstreamUrl, {p.nixpkgsTarget}),
                              Wanted("origin", originUrl, {p.nixpkgsTarget, p.lastDay})] &&
      ('-' !in version ==> PlatformVersionOf(p.fcTarget) == Some(version) &&
                           NixosBranch(PlatformVersionOf(p.fcTarget).value) == p.nixpkgsTarget)
  {
    var p := PlanPlatform(version, today, upstreamUrl, originUrl).value;
    var ws := WantedOf(p.remotes);
    assert BranchSet([p.nixpkgsTarget]) == {p.nixpkgsTarget};
    assert BranchSet([p.nixpkgsTarget, p.lastDay]) == {p.nixpkgsTarget, p.lastDay};
    assert "upstream"[0] != "origin"[0];
    assert '/' !in "upstream" && '/' !in "origin";
    if '-' !in version {
      PlatformVersionRoundTrip(version);
    }
  }

  // ----- nixpkgs_repository -----

  /** `nixpkgs_repository`: open the checkout (or initialise an empty one),
      then for each remote in order set its URL and fetch each of its
      branches, ignoring every fetch that fails. */
  method NixpkgsRepository(existing: Option<Repo>, specs: RemoteSpecs, server: Server) returns (repo: Repo)
    modifies if existing.Some? then {existing.value} else {}
    ensures existing.Some? ==>
      repo == existing.value &&
      repo.State() == WithView(old(repo.State()), Reconcile(old(repo.State()).View(), WantedOf(specs), server))
    ensures existing.None? ==>
      fresh(repo) &&
      repo.State() == WithView(EmptyRepo, Reconcile(EmptyRepo.View(), WantedOf(specs), server))
  {
    if existing.Some? {
      repo := existing.value;
    } else {
      repo := new Repo.Init();
    }
    ghost var start := repo.State();
    ghost var ws := WantedOf(specs);
    for i := 0 to |specs|
      invariant repo.State() == WithView(start, repo.State().View())
      invariant Reconcile(repo.State().View(), ws[i..], server) == Reconcile(start.View(), ws, server)
    {
      var name, remote := specs[i].0, specs[i].1;
      ReconcileFrom(repo.State().View(), ws, i, server);
      ConfigureAndFetch(repo, name, remote.url, remote.branches, server);
    }
  }

  /** After the call, every configured remote has its configured URL and
      every branch its URL serves is fetched — a branch the URL does not
      serve only misses its own tracking branch — and calling it again on
      the result changes nothing. */
  lemma RepositoryReconciled(v: RemoteView, specs: RemoteSpecs, server: Server)
    requires WellNamed(WantedOf(specs))
    ensures var r := Reconcile(v, WantedOf(specs), server);
      r.remotes == Configured(v.remotes, WantedOf(specs)) &&
      Settled(r, WantedOf(specs), server) &&
      Reconcile(r, WantedOf(specs), server) == r
  {
    ReconcileRemotes(v, WantedOf(specs), server);
    ReconcileSettles(v, WantedOf(specs), server);
    ReconcileIdempotent(v, WantedOf(specs), server);
  }

  // ----- rebase_nixpkgs -----

  /** `rebase_nixpkgs` of the daily job as a function of the repository
      before it: refuse a dirty tree, put the integration branch in place,
      stop when upstream is already merged, rebase (leaving a failed rebase
      as it is), skip when the tree equals yesterday's branch, push with
      `force=True`, and report the four commits. */
  function CiRebase(s: RepoState, branch: string, integration: string, lastDay: string, git: Oracles): Run<RebaseOutcome>
  {
    if s.dirty then Run(s, Raised(DirtyRepository))
    else match Materialize(s, integration, branch)
    case None => Run(s, Raised(UnknownRevision(Origin(branch))))
    case Some(m) => CiRebaseOnBranch(m, branch, integration, lastDay, git)
  }

  /** What follows materialisation, with HEAD on the integration branch. */
  function CiRebaseOnBranch(m: RepoState, branch: string, integration: string, lastDay: string, git: Oracles): Run<RebaseOutcome>
    requires m.current == integration && integration in m.heads
  {
    match m.Resolve(Upstream(branch))
    case None => Run(m, Raised(UnknownRevision(Upstream(branch))))
    case Some(latest) =>
      if UpstreamContained(latest, m.heads[integration], git) then Run(m, UpToDate)
      else
        var r := AfterRebase(m, Upstream(branch), git);
        if RebaseStepOf(m, Upstream(branch), git).Replayed?
        then CiPublish(r, branch, integration, lastDay, latest, m.heads[integration], git)
        else Run(r, Conflict)
  }

  /** What follows a completed rebase: compare with yesterday's branch, push,
      and read origin's release branch for the result. */
  function CiPublish(r: RepoState, branch: string, integration: string, lastDay: string,
                     latest: Commit, before: Commit, git: Oracles): Run<RebaseOutcome>
    requires integration in r.heads
  {
    var after := r.heads[integration];
    var last := r.Resolve(Origin(lastDay));
    if last.Some? && git.sameTree(after, last.value) then Run(r, SameAsLastDay)
    else if !PushOk(r, "origin", integration) then Run(r, Raised(PushFailed))
    else
      var p := AfterPush(r, "origin", integration, Force);
      match p.Resolve(Origin(branch))
      case None => Run(p, Raised(UnknownRevision(Origin(branch))))
      case Some(fork) => Run(p, Rebased(NixpkgsRebaseResult(latest, fork, before, after)))
  }

  method RebaseNixpkgs(repo: Repo, branch: string, integration: string, lastDay: string, git: Oracles)
    returns (outcome: RebaseOutcome)
    modifies repo
    ensures Run(repo.State(), outcome) == CiRebase(old(repo.State()), branch, integration, lastDay, git)
  {
    var dirty := repo.IsDirty();
    if dirty {
      return Raised(DirtyRepository);
    }
    var ok := MaterializeBranch(repo, integration, branch);
    if !ok {
      return Raised(UnknownRevision(Origin(branch)));
    }
    var latest := repo.Lookup(Upstream(branch));
    if latest.None? {
      return Raised(UnknownRevision(Upstream(branch)));
    }
    var before := repo.heads[integration];
    if UpstreamContained(latest.value, before, git) {
      return UpToDate;
    }
    var step := repo.Rebase(Upstream(branch), git);
    if !step.Replayed? {
      return Conflict;
    }
    var after := repo.heads[integration];
    var last := repo.Lookup(Origin(lastDay));
    if last.Some? && git.sameTree(after, last.value) {
      return SameAsLastDay;
    }
    var pushed := repo.Push("origin", integration, Force);
    if !pushed {
      return Raised(PushFailed);
    }
    var fork := repo.Lookup(Origin(branch));
    if fork.None? {
      return Raised(UnknownRevision(Origin(branch)));
    }
    return Rebased(NixpkgsRebaseResult(latest.value, fork.value, before, after));
  }

  /** A dirty repository raises before any checkout, rebase or push: the
      repository is left exactly as it was. */
  lemma DirtyRaises(s: RepoState, branch: string, integration: string, lastDay: string, git: Oracles)
    requires s.dirty
    ensures CiRebase(s, branch, integration, lastDay, git) == Run(s, Raised(DirtyRepository))
  {
  }

  lemma OnBranchStays(m: RepoState, branch: string, integration: string, lastDay: string, git: Oracles)
    requires m.current == integration && integration in m.heads
    ensures var run := CiRebaseOnBranch(m, branch, integration, lastDay, git);
      run.state.current == integration && integration in run.state.heads &&
      run.state.heads == m.heads[integration := run.state.heads[integration]]
  {
    if m.Resolve(Upstream(branch)).Some? && !UpstreamContained(m.Resolve(Upstream(branch)).value, m.heads[integration], git) {
      var r := AfterRebase(m, Upstream(branch), git);
      assert r.current == integration && r.heads == m.heads[integration := r.heads[integration]];
    }
  }

  /** Once the integration branch is in place, HEAD stays on it to the end
      of the call, and no other local branch ever moves. */
  lemma StaysOnIntegrationBranch(s: RepoState, branch: string, integration: string, lastDay: string, git: Oracles)
    requires !s.dirty && Materialize(s, integration, branch).Some?
    ensures var run := CiRebase(s, branch, integration, lastDay, git);
      run.state.current == integration && integration in run.state.heads &&
      run.state.heads == s.heads[integration := run.state.heads[integration]]
  {
    OnBranchStays(Materialize(s, integration, branch).value, branch, integration, lastDay, git);
  }

  /** The call ends `UpToDate` exactly when the upstream tip is already a
      merge base of upstream and the integration branch; then nothing is
      rebased and nothing pushed. */
  lemma UpToDateMeansNothingDone(s: RepoState, branch: string, integration: string, lastDay: string, git: Oracles)
    ensures var run := CiRebase(s, branch, integration, lastDay, git);
      var m := Materialize(s, integration, branch);
      run.outcome == UpToDate <==>
        !s.dirty && m.Some? && m.value.Resolve(Upstream(branch)).Some? &&
        UpstreamContained(m.value.Resolve(Upstream(branch)).value, m.value.heads[integration], git)
    ensures var run := CiRebase(s, branch, integration, lastDay, git);
      run.outcome == UpToDate ==> run.state == Materialize(s, integration, branch).value
  {
  }

  /** From a consistent repository the call ends in a conflict exactly when
      the rebase itself fails: the tree was clean, the integration branch
      was put in place, upstream resolved and was not yet merged, and
      replaying the branch onto it does not go through. It then returns with
      nothing pushed and the branch where it was; the daily job does not
      abort, so the conflicted rebase is still in progress and the tree
      dirty afterwards. */
  lemma ConflictLeavesRebaseInProgress(s: RepoState, branch: string, integration: string, lastDay: string, git: Oracles)
    requires s.Valid()
    ensures var run := CiRebase(s, branch, integration, lastDay, git);
      var m := Materialize(s, integration, branch);
      run.outcome == Conflict <==>
        !s.dirty && m.Some? && m.value.Resolve(Upstream(branch)).Some? &&
        !UpstreamContained(m.value.Resolve(Upstream(branch)).value, m.value.heads[integration], git) &&
        git.rebase(m.value.heads[integration], m.value.Resolve(Upstream(branch)).value).None?
    ensures var run := CiRebase(s, branch, integration, lastDay, git);
      run.outcome == Conflict ==>
        run.state.pushes == s.pushes &&
        run.state.heads == Materialize(s, integration, branch).value.heads &&
        run.state.rebaseInProgress && run.state.dirty
  {
    if !s.dirty && Materialize(s, integration, branch).Some? {
      var m := Materialize(s, integration, branch).value;
      if m.Resolve(Upstream(branch)).Some? && !UpstreamContained(m.Resolve(Upstream(branch)).value, m.heads[integration], git) {
        var latest := m.Resolve(Upstream(branch)).value;
        var step := RebaseStepOf(m, Upstream(branch), git);
        assert m.HeadCommit() == Some(m.heads[integration]);
        assert !step.Refused?;
        var r := AfterRebase(m, Upstream(branch), git);
        if step.Replayed? {
          assert CiRebase(s, branch, integration, lastDay, git) == CiPublish(r, branch, integration, lastDay, latest, m.heads[integration], git);
        } else {
          assert CiRebase(s, branch, integration, lastDay, git) == Run(r, Conflict);
          assert step == Conflicted;
        }
      }
    }
  }

  /** The call skips the push because the rebased tree equals yesterday's
      integration branch exactly when the rebase went through and
      `origin/<lastDay>` resolves to a commit with the same tree as the
      rebased tip; then nothing is pushed. */
  lemma SameAsLastDayPushesNothing(s: RepoState, branch: string, integration: string, lastDay: string, git: Oracles)
    ensures var run := CiRebase(s, branch, integration, lastDay, git);
      var m := Materialize(s, integration, branch);
      run.outcome == SameAsLastDay <==>
        !s.dirty && m.Some? && m.value.Resolve(Upstream(branch)).Some? &&
        !UpstreamContained(m.value.Resolve(Upstream(branch)).value, m.value.heads[integration], git) &&
        RebaseStepOf(m.value, Upstream(branch), git).Replayed? &&
        var last := AfterRebase(m.value, Upstream(branch), git).Resolve(Origin(lastDay));
        last.Some? && git.sameTree(RebaseStepOf(m.value, Upstream(branch), git).tip, last.value)
    ensures var run := CiRebase(s, branch, integration, lastDay, git);
      run.outcome == SameAsLastDay ==>
        run.state.pushes == s.pushes && integration in run.state.heads &&
        run.state.Resolve(Origin(lastDay)).Some? &&
        git.sameTree(run.state.heads[integration], run.state.Resolve(Origin(lastDay)).value)
  {
    if !s.dirty && Materialize(s, integration, branch).Some? {
      var m := Materialize(s, integration, branch).value;
      if m.Resolve(Upstream(branch)).Some? && !UpstreamContained(m.Resolve(Upstream(branch)).value, m.heads[integration], git) {
        var latest := m.Resolve(Upstream(branch)).value;
        var r := AfterRebase(m, Upstream(branch), git);
        if RebaseStepOf(m, Upstream(branch), git).Replayed? {
          assert r.heads[integration] == RebaseStepOf(m, Upstream(branch), git).tip;
          assert r.pushes == s.pushes;
          assert CiRebase(s, branch, integration, lastDay, git) == CiPublish(r, branch, integration, lastDay, latest, m.heads[integration], git);
        }
      }
    }
  }

  /** On success exactly one push happened — the integration branch to
      origin, forced, at the rebased tip — and the result holds the upstream
      tip, origin's release branch, and HEAD before and after the rebase. */
  lemma RebasedResult(s: RepoState, branch: string, integration: string, lastDay: string, git: Oracles)
    requires CiRebase(s, branch, integration, lastDay, git).outcome.Rebased?
    ensures var run := CiRebase(s, branch, integration, lastDay, git);
      var res := run.outcome.result;
      var m := Materialize(s, integration, branch).value;
      run.state.pushes == s.pushes + [PushRecord("origin", integration, res.forkAfterRebase, Force)] &&
      res.upstreamCommit == m.Resolve(Upstream(branch)).value &&
      !UpstreamContained(res.upstreamCommit, res.forkBeforeRebase, git) &&
      res.forkBeforeRebase == m.heads[integration] &&
      git.rebase(res.forkBeforeRebase, res.upstreamCommit) == Some(res.forkAfterRebase) &&
      run.state.heads[integration] == res.forkAfterRebase &&
      res.forkCommit == run.state.Resolve(Origin(branch)).value &&
      !(run.state.Resolve(Origin(lastDay)).Some? &&
        git.sameTree(res.forkAfterRebase, run.state.Resolve(Origin(lastDay)).value))
  {
    var m := Materialize(s, integration, branch).value;
    var latest := m.Resolve(Upstream(branch)).value;
    var step := RebaseStepOf(m, Upstream(branch), git);
    assert step.Replayed?;
    var r := AfterRebase(m, Upstream(branch), git);
    assert r == m.(heads := m.heads[integration := step.tip]);
    var run := CiPublish(r, branch, integration, lastDay, latest, m.heads[integration], git);
    assert run == CiRebase(s, branch, integration, lastDay, git);
    assert PushOk(r, "origin", integration);
    assert run.state == AfterPush(r, "origin", integration, Force);
  }

  /** At most one push, appended to those before; a push happened only on
      success or when the last lookup of `origin/<branch>` raised. */
  lemma PushesOnlyOnSuccess(s: RepoState, branch: string, integration: string, lastDay: string, git: Oracles)
    ensures var run := CiRebase(s, branch, integration, lastDay, git);
      (run.state.pushes == s.pushes ||
       (integration in run.state.heads &&
        run.state.pushes == s.pushes + [PushRecord("origin", integration, run.state.heads[integration], Force)])) &&
      (run.state.pushes != s.pushes ==>
         run.outcome.Rebased? || run.outcome == Raised(UnknownRevision(Origin(branch))))
  {
    if !s.dirty && Materialize(s, integration, branch).Some? {
      var m := Materialize(s, integration, branch).value;
      if m.Resolve(Upstream(branch)).Some? && !UpstreamContained(m.Resolve(Upstream(branch)).value, m.heads[integration], git) {
        var latest := m.Resolve(Upstream(branch)).value;
        var r := AfterRebase(m, Upstream(branch), git);
        assert r.pushes == s.pushes;
        if RebaseStepOf(m, Upstream(branch), git).Replayed? {
          PublishPushes(r, branch, integration, lastDay, latest, m.heads[integration], git);
        }
      }
    }
  }

  lemma PublishPushes(r: RepoState, branch: string, integration: string, lastDay: string,
                      latest: Commit, before: Commit, git: Oracles)
    requires integration in r.heads
    ensures var run := CiPublish(r, branch, integration, lastDay, latest, before, git);
      integration in run.state.heads &&
      (run.state.pushes == r.pushes ||
       run.state.pushes == r.pushes + [PushRecord("origin", integration, run.state.heads[integration], Force)]) &&
      (run.state.pushes != r.pushes ==>
         run.outcome.Rebased? || run.outcome == Raised(UnknownRevision(Origin(branch))))
  {
    var last := r.Resolve(Origin(lastDay));
    if !(last.Some? && git.sameTree(r.heads[integration], last.value)) && PushOk(r, "origin", integration) {
      var p := AfterPush(r, "origin", integration, Force);
      assert p.heads == r.heads;
    }
  }

  /** As written, a conflict in one platform version leaves the checkout
      dirty. Reconciling the remotes for the next platform version touches
      only remotes and tracking refs, so that version's rebase raises
      "Repository is dirty!" whatever its remotes and branches. */
  lemma ConflictBlocksNextPlatform(s: RepoState, branch: string, integration: string, lastDay: string, git: Oracles,
                                   ws: seq<Wanted>, server: Server,
                                   branch2: string, integration2: string, lastDay2: string, git2: Oracles)
    requires s.Valid()
    requires CiRebase(s, branch, integration, lastDay, git).outcome == Conflict
    ensures var run := CiRebase(s, branch, integration, lastDay, git);
      var next := WithView(run.state, Reconcile(run.state.View(), ws, server));
      CiRebase(next, branch2, integration2, lastDay2, git2) == Run(next, Raised(DirtyRepository))
  {
    ConflictLeavesRebaseInProgress(s, branch, integration, lastDay, git);
    var run := CiRebase(s, branch, integration, lastDay, git);
    DirtyRaises(WithView(run.state, Reconcile(run.state.View(), ws, server)), branch2, integration2, lastDay2, git2);
  }

  /** The rebase as the other two scripts do it on conflict: abort the
      stopped rebase before returning. */
  function CiRebaseAborting(s: RepoState, branch: string, integration: string, lastDay: string, git: Oracles): Run<RebaseOutcome>
  {
    var run := CiRebase(s, branch, integration, lastDay, git);
    if run.outcome == Conflict && run.state.rebaseInProgress then Run(AfterRebaseAbort(run.state), Conflict)
    else run
  }

  /** With the abort, a conflict leaves the repository exactly as branch
      materialisation left it — clean — so the next platform version is not
      refused; every other outcome is unchanged. */
  lemma AbortingLeavesClean(s: RepoState, branch: string, integration: string, lastDay: string, git: Oracles)
    requires s.Valid()
    ensures var fixed := CiRebaseAborting(s, branch, integration, lastDay, git);
      var run := CiRebase(s, branch, integration, lastDay, git);
      fixed.outcome == run.outcome &&
      (run.outcome != Conflict ==> fixed == run) &&
      (run.outcome == Conflict ==>
         fixed.state == Materialize(s, integration, branch).value && !fixed.state.dirty && fixed.state.Valid())
  {
  }

  method RebaseNixpkgsAborting(repo: Repo, branch: string, integration: string, lastDay: string, git: Oracles)
    returns (outcome: RebaseOutcome)
    modifies repo
    ensures Run(repo.State(), outcome) == CiRebaseAborting(old(repo.State()), branch, integration, lastDay, git)
  {
    outcome := RebaseNixpkgs(repo, branch, integration, lastDay, git);
    if outcome == Conflict && repo.rebaseInProgress {
      var _ := repo.RebaseAbort();
    }
  }

  // ----- update_fc_nixos -----

  /** How the three nix subprocesses end. */
  datatype NixResults = NixResults(lockOk: bool, versionsOk: bool, packageVersionsOk: bool)

  /** `datetime.now()` to the second. */
  datatype Timestamp = Timestamp(date: Date, hour: int, minute: int, second: int)

  predicate ValidTimestamp(t: Timestamp)
  {
    Valid(t.date) && 0 <= t.hour < 24 && 0 <= t.minute < 60 && 0 <= t.second < 60
  }

  /** `strftime('%Y%m%d_%H%M%S')`. */
  function Stamp(t: Timestamp): (s: string)
    requires ValidTimestamp(t)
    ensures |s| == 15
  {
    Padded(t.date.year, 4) + Padded(t.date.month, 2) + Padded(t.date.day, 2) + "_" +
    Padded(t.hour, 2) + Padded(t.minute, 2) + Padded(t.second, 2)
  }

  /** The changelog fragment the job writes and stages. */
  function ChangelogPath(t: Timestamp, target: string): (p: string)
    requires ValidTimestamp(t)
    ensures |p| == 51 + |target|
  {
    ChangelogDir + "/" + Stamp(t) + "_nixpkgs-auto-update-" + target + ".md"
  }

  function ChangelogText(previous: Commit, next: Commit): string
  {
    "\n### NixOS XX.XX platform\n\n- Update nixpkgs from " + previous + " to " + next + "\n"
  }

  function CommitMessage(next: Commit): string
  {
    "Auto update nixpkgs to " + next
  }

  /** The four paths `git add` stages. */
  function StagedPaths(t: Timestamp, target: string): set<string>
    requires ValidTimestamp(t)
  {
    {FlakeLock, VersionsPath, PackageVersionsPath, ChangelogPath(t, target)}
  }

  lemma PaddedInjective(a: nat, b: nat, width: nat)
    requires a < Pow10(width) && b < Pow10(width)
    requires Padded(a, width) == Padded(b, width)
    ensures a == b
  {
  }

  /** Distinct timestamps give distinct `%Y%m%d_%H%M%S` stamps. */
  lemma {:induction false} StampInjective(t1: Timestamp, t2: Timestamp)
    requires ValidTimestamp(t1) && ValidTimestamp(t2) && Stamp(t1) == Stamp(t2)
    ensures t1 == t2
  {
    StampFields(t1);
    StampFields(t2);
    PaddedInjective(t1.date.year, t2.date.year, 4);
    PaddedInjective(t1.date.month, t2.date.month, 2);
    PaddedInjective(t1.date.day, t2.date.day, 2);
    PaddedInjective(t1.hour, t2.hour, 2);
    PaddedInjective(t1.minute, t2.minute, 2);
    PaddedInjective(t1.second, t2.second, 2);
  }

  /** Where each field sits in the stamp. */
  lemma StampFields(t: Timestamp)
    requires ValidTimestamp(t)
    ensures var s := Stamp(t);
      && s[0..4] == Padded(t.date.year, 4)
      && s[4..6] == Padded(t.date.month, 2)
      && s[6..8] == Padded(t.date.day, 2)
      && s[9..11] == Padded(t.hour, 2)
      && s[11..13] == Padded(t.minute, 2)
      && s[13..15] == Padded(t.second, 2)
  {
    StampLayout(Padded(t.date.year, 4), Padded(t.date.month, 2), Padded(t.date.day, 2),
                Padded(t.hour, 2), Padded(t.minute, 2), Padded(t.second, 2));
  }

  lemma StampLayout(y: string, mo: string, d: string, h: string, mi: string, se: string)
    requires |y| == 4 && |mo| == 2 && |d| == 2 && |h| == 2 && |mi| == 2 && |se| == 2
    ensures var s := y + mo + d + "_" + h + mi + se;
      s[0..4] == y && s[4..6] == mo && s[6..8] == d && s[9..11] == h && s[11..13] == mi && s[13..15] == se
  {
    var day := y + mo + d;
    var time := h + mi + se;
    assert y + mo + d + "_" + h + mi + se == day + "_" + time;
    assert day[0..4] == y && day[4..6] == mo && day[6..8] == d;
    assert time[0..2] == h && time[2..4] == mi && time[4..6] == se;
  }

  /** The changelog fragment is named after the second it was written and
      the target branch: two runs that differ in either never write the same
      file, and it never collides with the three generated files. */
  lemma ChangelogPathsDistinct(t1: Timestamp, target1: string, t2: Timestamp, target2: string)
    requires ValidTimestamp(t1) && ValidTimestamp(t2)
    ensures ChangelogPath(t1, target1) == ChangelogPath(t2, target2) ==> t1 == t2 && target1 == target2
    ensures |StagedPaths(t1, target1)| == 4
  {
    var p1, p2 := ChangelogPath(t1, target1), ChangelogPath(t2, target2);
    if p1 == p2 {
      assert p1[12..27] == Stamp(t1) && p2[12..27] == Stamp(t2);
      StampInjective(t1, t2);
      assert p1[48..48 + |target1|] == target1 && p2[48..48 + |target2|] == target2;
    }
  }

  /** `update_fc_nixos` as a function of the fc-nixos checkout before it:
      put the integration branch in place, run the three nix steps (each may
      raise), write the changelog fragment, stage the four paths, commit and
      push with `force=True`. */
  function FcUpdate(s: RepoState, target: string, integration: string, previous: Commit, next: Commit,
                    now: Timestamp, nix: NixResults, id: Commit): Run<Option<Failure>>
    requires ValidTimestamp(now)
  {
    match Materialize(s, integration, target)
    case None => Run(s, Some(UnknownRevision(Origin(target))))
    case Some(m) =>
      if !nix.lockOk then Run(m, Some(NixFailed("nix flake lock")))
      else if !nix.versionsOk then Run(m, Some(NixFailed("nix run .#buildVersionsJson")))
      else if !nix.packageVersionsOk then Run(m, Some(NixFailed("nix run .#buildPackageVersionsJson")))
      else
        var w := m.(files := m.files[ChangelogPath(now, target) := ChangelogText(previous, next)]);
        var c := AfterCommit(AfterAdd(w, StagedPaths(now, target)), CommitMessage(next), id);
        if !PushOk(c, "origin", integration) then Run(c, Some(PushFailed))
        else Run(AfterPush(c, "origin", integration, Force), None)
  }

  method UpdateFcNixos(repo: Repo, target: string, integration: string, previous: Commit, next: Commit,
                       now: Timestamp, nix: NixResults, id: Commit) returns (failure: Option<Failure>)
    requires ValidTimestamp(now)
    modifies repo
    ensures Run(repo.State(), failure) == FcUpdate(old(repo.State()), target, integration, previous, next, now, nix, id)
  {
    var ok := MaterializeBranch(repo, integration, target);
    if !ok {
      return Some(UnknownRevision(Origin(target)));
    }
    if !nix.lockOk {
      return Some(NixFailed("nix flake lock"));
    }
    if !nix.versionsOk {
      return Some(NixFailed("nix run .#buildVersionsJson"));
    }
    if !nix.packageVersionsOk {
      return Some(NixFailed("nix run .#buildPackageVersionsJson"));
    }
    repo.WriteFile(ChangelogPath(now, target), ChangelogText(previous, next));
    repo.Add(StagedPaths(now, target));
    repo.Commit(CommitMessage(next), id);
    var pushed := repo.Push("origin", integration, Force);
    if !pushed {
      return Some(PushFailed);
    }
    return None;
  }

  /** On success the checkout is on the integration branch at one new commit
      whose message names the new nixpkgs commit and whose paths are the lock
      file, the two version files and the changelog fragment (plus anything
      staged before); that commit is force-pushed to origin, and the
      fragment names both nixpkgs commits. */
  lemma FcUpdateCommitsAndPushes(s: RepoState, target: string, integration: string, previous: Commit, next: Commit,
                                 now: Timestamp, nix: NixResults, id: Commit)
    requires ValidTimestamp(now)
    requires FcUpdate(s, target, integration, previous, next, now, nix, id).outcome.None?
    ensures var r := FcUpdate(s, target, integration, previous, next, now, nix, id).state;
      r.current == integration && r.heads[integration] == id &&
      r.commits == s.commits + [CommitRecord(id, "Auto update nixpkgs to " + next, s.staged + StagedPaths(now, target))] &&
      r.pushes == s.pushes + [PushRecord("origin", integration, id, Force)] &&
      r.staged == {} &&
      r.files[ChangelogPath(now, target)] == ChangelogText(previous, next)
  {
    var m := Materialize(s, integration, target).value;
    var w := m.(files := m.files[ChangelogPath(now, target) := ChangelogText(previous, next)]);
    var c := AfterCommit(AfterAdd(w, StagedPaths(now, target)), CommitMessage(next), id);
    assert m.current == integration && c.current == integration;
    assert FcUpdate(s, target, integration, previous, next, now, nix, id).state == AfterPush(c, "origin", integration, Force);
    assert c.heads[integration] == id;
  }

  /** A failing nix step raises before anything is written, committed or
      pushed. */
  lemma NixFailureChangesNothing(s: RepoState, target: string, integration: string, previous: Commit, next: Commit,
                                 now: Timestamp, nix: NixResults, id: Commit)
    requires ValidTimestamp(now)
    requires !(nix.lockOk && nix.versionsOk && nix.packageVersionsOk)
    ensures var run := FcUpdate(s, target, integration, previous, next, now, nix, id);
      run.outcome.Some? && run.state.commits == s.commits && run.state.pushes == s.pushes &&
      run.state.files == s.files && run.state.staged == s.staged
  {
  }
}
