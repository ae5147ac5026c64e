/** The release manager's script (`update-nixpkgs.py`): fetch everything
    from `origin` and `upstream`, rebase the integration branch onto the
    upstream release branch, abort a conflicting rebase, and push with
    `--force-with-lease`. */
module ManualUpdate {
  import opened Wrappers
  import opened Git
  import opened Remotes
  import opened Rebasing

  // ----- nixpkgs_repository -----

  /** How reconciling the remotes ended: the remote view reached and the
      remote whose fetch raised, if one did. */
  datatype Attempt = Attempt(view: RemoteView, failed: Option<string>)

  /** What `remote.fetch()` with git's default refspec fetches: every branch
      the URL serves. */
  function FetchAllWanted(name: string, url: string, server: Server): Wanted
  {
    Wanted(name, url, Served(server, url).Keys)
  }

  function AllWanted(pairs: seq<(string, string)>, server: Server): (ws: seq<Wanted>)
    ensures |ws| == |pairs|
    ensures forall i :: 0 <= i < |pairs| ==> ws[i] == FetchAllWanted(pairs[i].0, pairs[i].1, server)
  {
    if pairs == [] then [] else [FetchAllWanted(pairs[0].0, pairs[0].1, server)] + AllWanted(pairs[1..], server)
  }

  /** Each remote in order: set its URL, then fetch all of it; an unreachable
      URL raises out of the loop, after its remote was configured. */
  function ReconcileFetchAll(v: RemoteView, pairs: seq<(string, string)>, server: Server): Attempt
    decreases |pairs|
  {
    if pairs == [] then Attempt(v, None)
    else
      var (name, url) := pairs[0];
      if url !in server then Attempt(Reconfigured(v, name, url), Some(name))
      else ReconcileFetchAll(Step(v, FetchAllWanted(name, url, server), server), pairs[1..], server)
  }

  /** The reconciliation fails exactly when some URL cannot be reached, and
      names the first such remote; when it succeeds it is the daily job's
      reconciliation with every served branch wanted. */
  lemma FetchAllReconciles(v: RemoteView, pairs: seq<(string, string)>, server: Server)
    ensures var a := ReconcileFetchAll(v, pairs, server);
      (a.failed.None? <==> forall i :: 0 <= i < |pairs| ==> pairs[i].1 in server) &&
      (a.failed.None? ==> a.view == Reconcile(v, AllWanted(pairs, server), server)) &&
      (a.failed.Some? ==> exists i :: 0 <= i < |pairs| && pairs[i].0 == a.failed.value && pairs[i].1 !in server &&
                                      forall j :: 0 <= j < i ==> pairs[j].1 in server)
  {
    FetchAllFailsIff(v, pairs, server);
    if ReconcileFetchAll(v, pairs, server).failed.None? {
      FetchAllSucceeds(v, pairs, server);
    } else {
      FetchAllFirstFailure(v, pairs, server);
    }
  }

  lemma {:induction false} FetchAllFailsIff(v: RemoteView, pairs: seq<(string, string)>, server: Server)
    ensures ReconcileFetchAll(v, pairs, server).failed.None? <==> forall i :: 0 <= i < |pairs| ==> pairs[i].1 in server
    decreases |pairs|
  {
    if pairs != [] && pairs[0].1 in server {
      var rest := pairs[1..];
      FetchAllFailsIff(Step(v, FetchAllWanted(pairs[0].0, pairs[0].1, server), server), rest, server);
      if forall i :: 0 <= i < |rest| ==> rest[i].1 in server {
        forall i | 0 <= i < |pairs| ensures pairs[i].1 in server {
          if i > 0 { assert pairs[i] == rest[i - 1]; }
        }
      } else {
        var i :| 0 <= i < |rest| && rest[i].1 !in server;
        assert pairs[i + 1] == rest[i];
      }
    }
  }

  lemma {:induction false} FetchAllSucceeds(v: RemoteView, pairs: seq<(string, string)>, server: Server)
    requires forall i :: 0 <= i < |pairs| ==> pairs[i].1 in server
    ensures ReconcileFetchAll(v, pairs, server) == Attempt(Reconcile(v, AllWanted(pairs, server), server), None)
    decreases |pairs|
  {
    if pairs != [] {
      var (name, url) := pairs[0];
      var rest := pairs[1..];
      assert pairs[0].1 in server;
      forall i | 0 <= i < |rest| ensures rest[i].1 in server {
        assert rest[i] == pairs[i + 1];
      }
      FetchAllSucceeds(Step(v, FetchAllWanted(name, url, server), server), rest, server);
      var ws := AllWanted(pairs, server);
      assert ws[0] == FetchAllWanted(name, url, server);
      assert ws[1..] == AllWanted(rest, server);
    }
  }

  lemma {:induction false} FetchAllFirstFailure(v: RemoteView, pairs: seq<(string, string)>, server: Server)
    requires ReconcileFetchAll(v, pairs, server).failed.Some?
    ensures var name := ReconcileFetchAll(v, pairs, server).failed.value;
      exists i :: 0 <= i < |pairs| && pairs[i].0 == name && pairs[i].1 !in server &&
                  forall j :: 0 <= j < i ==> pairs[j].1 in server
    decreases |pairs|
  {
    var (name, url) := pairs[0];
    if url !in server {
      assert pairs[0].0 == name && pairs[0].1 !in server;
    } else {
      var rest := pairs[1..];
      var next := Step(v, FetchAllWanted(name, url, server), server);
      FetchAllFirstFailure(next, rest, server);
      var failed := ReconcileFetchAll(next, rest, server).failed.value;
      var i :| 0 <= i < |rest| && rest[i].0 == failed && rest[i].1 !in server &&
               forall j :: 0 <= j < i ==> rest[j].1 in server;
      assert pairs[i + 1] == rest[i];
      forall j | 0 <= j < i + 1 ensures pairs[j].1 in server {
        if j > 0 { assert pairs[j] == rest[j - 1]; }
      }
    }
  }

  /** The two remotes, `origin` first. */
  function ScriptRemotes(upstream: string, origin: string): seq<(string, string)>
  {
    [("origin", origin), ("upstream", upstream)]
  }

  /** When both URLs can be reached, afterwards `origin` and `upstream` have
      their URLs, every branch either serves is fetched, and running it
      again changes nothing. */
  lemma ScriptRemotesReconciled(v: RemoteView, upstream: string, origin: string, server: Server)
    requires upstream in server && origin in server
    ensures var a := ReconcileFetchAll(v, ScriptRemotes(upstream, origin), server);
      var ws := AllWanted(ScriptRemotes(upstream, origin), server);
      a.failed.None? &&
      a.view.remotes == v.remotes["origin" := origin]["upstream" := upstream] &&
      Settled(a.view, ws, server) &&
      ReconcileFetchAll(a.view, ScriptRemotes(upstream, origin), server) == a
  {
    var pairs := ScriptRemotes(upstream, origin);
    var ws := AllWanted(pairs, server);
    assert "origin"[0] != "upstream"[0];
    assert '/' !in "origin" && '/' !in "upstream";
    assert WellNamed(ws);
    FetchAllReconciles(v, pairs, server);
    var a := ReconcileFetchAll(v, pairs, server);
    ReconcileRemotes(v, ws, server);
    assert ws[0].name == "origin" && ws[0].url == origin && ws[1].name == "upstream" && ws[1].url == upstream;
    ConfiguredPair(v.remotes, ws);
    ReconcileSettles(v, ws, server);
    ReconcileIdempotent(v, ws, server);
    FetchAllReconciles(a.view, pairs, server);
  }

  lemma ConfiguredPair(remotes: map<string, string>, ws: seq<Wanted>)
    requires |ws| == 2
    ensures Configured(remotes, ws) == remotes[ws[0].name := ws[0].url][ws[1].name := ws[1].url]
  {
    var m := remotes[ws[0].name := ws[0].url];
    var tail := ws[1..];
    assert tail[0] == ws[1] && tail[1..] == [];
    assert Configured(m, tail) == Configured(m[ws[1].name := ws[1].url], tail[1..]);
  }

  /** `nixpkgs_repository` of the manual script. A missing directory makes
      `Repo.clone_from` try to clone from the directory into a path named
      after the origin URL (its two arguments are given in swapped order),
      which raises. */
  method NixpkgsRepository(existing: Option<Repo>, upstream: string, origin: string, server: Server)
    returns (repo: Repo?, failure: Option<Failure>)
    modifies if existing.Some? then {existing.value} else {}
    ensures existing.None? ==> repo == null && failure == Some(CloneFailed)
    ensures existing.Some? ==>
      var a := ReconcileFetchAll(old(existing.value.State()).View(), ScriptRemotes(upstream, origin), server);
      repo == existing.value &&
      repo.State() == WithView(old(existing.value.State()), a.view) &&
      failure == if a.failed.None? then None else Some(FetchFailed(a.failed.value))
  {
    if existing.None? {
      return null, Some(CloneFailed);
    }
    repo := existing.value;
    ghost var start := repo.State();
    var pairs := ScriptRemotes(upstream, origin);
    for i := 0 to |pairs|
      invariant repo.State() == WithView(start, repo.State().View())
      invariant ReconcileFetchAll(repo.State().View(), pairs[i..], server) == ReconcileFetchAll(start.View(), pairs, server)
    {
      var (name, url) := pairs[i];
      assert pairs[i..] == [pairs[i]] + pairs[i + 1..];
      Reconfigure(repo, name, url);
      var ok := repo.FetchAll(name, server);
      if !ok {
        return repo, Some(FetchFailed(name));
      }
    }
    failure := None;
  }

  // ----- rebase_nixpkgs -----

  /** `rebase_nixpkgs` of the manual script as a function of the repository
      before it. */
  function ManualRebase(s: RepoState, branch: string, integration: string, git: Oracles): Run<RebaseOutcome>
  {
    if s.dirty then Run(s, Raised(DirtyRepository))
    else match Materialize(s, integration, branch)
    case None => Run(s, Raised(UnknownRevision(Origin(branch))))
    case Some(m) => ManualRebaseOnBranch(m, branch, integration, git)
  }

  /** What follows materialisation: a failed rebase is aborted (and the
      abort itself raises when no rebase was left in progress). */
  function ManualRebaseOnBranch(m: RepoState, branch: string, integration: string, git: Oracles): Run<RebaseOutcome>
    requires m.current == integration && integration in m.heads
  {
    match m.Resolve(Upstream(branch))
    case None => Run(m, Raised(UnknownRevision(Upstream(branch))))
    case Some(latest) =>
      if UpstreamContained(latest, m.heads[integration], git) then Run(m, UpToDate)
      else
        var r := AfterRebase(m, Upstream(branch), git);
        if RebaseStepOf(m, Upstream(branch), git).Replayed?
        then ManualPublish(r, branch, integration, latest, m.heads[integration])
        else if r.rebaseInProgress then Run(AfterRebaseAbort(r), Conflict)
        else Run(r, Raised(AbortFailed))
  }

  /** Push the current branch to origin with `--force-with-lease`, then read
      origin's release branch for the result. */
  function ManualPublish(r: RepoState, branch: string, integration: string, latest: Commit, before: Commit): Run<RebaseOutcome>
    requires r.current == integration && integration in r.heads
  {
    if !PushOk(r, "origin", r.current) then Run(r, Raised(PushFailed))
    else
      var p := AfterPush(r, "origin", r.current, ForceWithLease);
      match p.Resolve(Origin(branch))
      case None => Run(p, Raised(UnknownRevision(Origin(branch))))
      case Some(fork) => Run(p, Rebased(NixpkgsRebaseResult(latest, fork, before, r.heads[integration])))
  }

  method RebaseNixpkgs(repo: Repo, branch: string, integration: string, git: Oracles) returns (outcome: RebaseOutcome)
    modifies repo
    ensures Run(repo.State(), outcome) == ManualRebase(old(repo.State()), branch, integration, git)
  {
    var dirty := repo.IsDirty();
    if dirty {
      return Raised(DirtyRepository);
    }
    var ok := MaterializeBranch(repo, integration, branch);
    if !ok {
      return Raised(UnknownRevision(Origin(branch)));
    }
    var latest := repo.Lookup(Upstream(branch));
    if latest.None? {
      return Raised(UnknownRevision(Upstream(branch)));
    }
    var before := repo.heads[integration];
    if UpstreamContained(latest.value, before, git) {
      return UpToDate;
    }
    var step := repo.Rebase(Upstream(branch), git);
    if !step.Replayed? {
      var aborted := repo.RebaseAbort();
      if !aborted {
        return Raised(AbortFailed);
      }
      return Conflict;
    }
    var pushed := repo.Push("origin", repo.current, ForceWithLease);
    if !pushed {
      return Raised(PushFailed);
    }
    var fork := repo.Lookup(Origin(branch));
    if fork.None? {
      return Raised(UnknownRevision(Origin(branch)));
    }
    return Rebased(NixpkgsRebaseResult(latest.value, fork.value, before, repo.heads[integration]));
  }

  /** A dirty repository raises before any branch operation. */
  lemma DirtyRaises(s: RepoState, branch: string, integration: string, git: Oracles)
    requires s.dirty
    ensures ManualRebase(s, branch, integration, git) == Run(s, Raised(DirtyRepository))
  {
  }

  lemma OnBranchStays(m: RepoState, branch: string, integration: string, git: Oracles)
    requires m.current == integration && integration in m.heads
    ensures var run := ManualRebaseOnBranch(m, branch, integration, git);
      run.state.current == integration && integration in run.state.heads &&
      run.state.heads == m.heads[integration := run.state.heads[integration]]
  {
    if m.Resolve(Upstream(branch)).Some? && !UpstreamContained(m.Resolve(Upstream(branch)).value, m.heads[integration], git) {
      var r := AfterRebase(m, Upstream(branch), git);
      assert r.current == integration && r.heads == m.heads[integration := r.heads[integration]];
    }
  }

  /** After branch materialisation HEAD stays on the integration branch and
      no other local branch moves. */
  lemma StaysOnIntegrationBranch(s: RepoState, branch: string, integration: string, git: Oracles)
    requires !s.dirty && Materialize(s, integration, branch).Some?
    ensures var run := ManualRebase(s, branch, integration, git);
      run.state.current == integration && integration in run.state.heads &&
      run.state.heads == s.heads[integration := run.state.heads[integration]]
  {
    OnBranchStays(Materialize(s, integration, branch).value, branch, integration, git);
  }

  /** `None` because upstream is already merged happens exactly when its tip
      is a merge base, and then nothing is rebased or pushed. */
  lemma UpToDateMeansNothingDone(s: RepoState, branch: string, integration: string, git: Oracles)
    ensures var run := ManualRebase(s, branch, integration, git);
      var m := Materialize(s, integration, branch);
      run.outcome == UpToDate <==>
        !s.dirty && m.Some? && m.value.Resolve(Upstream(branch)).Some? &&
        UpstreamContained(m.value.Resolve(Upstream(branch)).value, m.value.heads[integration], git)
    ensures var run := ManualRebase(s, branch, integration, git);
      run.outcome == UpToDate ==> run.state == Materialize(s, integration, branch).value
  {
  }

  /** From a consistent repository the call ends in a conflict exactly when
      the rebase itself fails: the tree was clean, the integration branch
      was put in place, upstream resolved and was not yet merged, and
      replaying the branch onto it does not go through. The rebase is then
      aborted: the repository is exactly as branch materialisation left it —
      no rebase in progress, a clean tree, nothing pushed — and the abort
      never fails. */
  lemma ConflictAborted(s: RepoState, branch: string, integration: string, git: Oracles)
    requires s.Valid()
    ensures var run := ManualRebase(s, branch, integration, git);
      var m := Materialize(s, integration, branch);
      run.outcome == Conflict <==>
        !s.dirty && m.Some? && m.value.Resolve(Upstream(branch)).Some? &&
        !UpstreamContained(m.value.Resolve(Upstream(branch)).value, m.value.heads[integration], git) &&
        git.rebase(m.value.heads[integration], m.value.Resolve(Upstream(branch)).value).None?
    ensures var run := ManualRebase(s, branch, integration, git);
      run.outcome != Raised(AbortFailed) &&
      (run.outcome == Conflict ==>
         run.state == Materialize(s, integration, branch).value &&
         !run.state.rebaseInProgress && !run.state.dirty && run.state.pushes == s.pushes)
  {
    if !s.dirty && Materialize(s, integration, branch).Some? {
      var m := Materialize(s, integration, branch).value;
      if m.Resolve(Upstream(branch)).Some? && !UpstreamContained(m.Resolve(Upstream(branch)).value, m.heads[integration], git) {
        var step := RebaseStepOf(m, Upstream(branch), git);
        assert m.HeadCommit() == Some(m.heads[integration]);
        if !step.Replayed? {
          assert !m.rebaseInProgress && !m.dirty;
          assert step == Conflicted;
          var r := AfterRebase(m, Upstream(branch), git);
          assert r == m.(dirty := true, rebaseInProgress := true);
          assert AfterRebaseAbort(r) == m;
        } else {
          var latest := m.Resolve(Upstream(branch)).value;
          var r := AfterRebase(m, Upstream(branch), git);
          PublishOutcome(r, branch, integration, latest, m.heads[integration]);
        }
      }
    }
  }

  /** Publishing ends in a push failure, a failed lookup or a result. */
  lemma PublishOutcome(r: RepoState, branch: string, integration: string, latest: Commit, before: Commit)
    requires r.current == integration && integration in r.heads
    ensures var run := ManualPublish(r, branch, integration, latest, before);
      integration in run.state.heads &&
      (run.outcome.Rebased? || run.outcome == Raised(PushFailed) || run.outcome == Raised(UnknownRevision(Origin(branch)))) &&
      (run.state.pushes == r.pushes ||
       run.state.pushes == r.pushes + [PushRecord("origin", integration, run.state.heads[integration], ForceWithLease)]) &&
      (run.state.pushes != r.pushes ==>
         run.outcome.Rebased? || run.outcome == Raised(UnknownRevision(Origin(branch)))) &&
      (run.outcome.Rebased? ==>
         run.state.pushes == r.pushes + [PushRecord("origin", integration, r.heads[integration], ForceWithLease)] &&
         run.state.heads == r.heads &&
         run.outcome.result == NixpkgsRebaseResult(latest, run.state.Resolve(Origin(branch)).value, before, r.heads[integration]))
  {
    if PushOk(r, "origin", r.current) {
      var p := AfterPush(r, "origin", r.current, ForceWithLease);
      assert p.heads == r.heads;
    }
  }

  /** On success exactly one push happened, with `--force-with-lease`, of the
      integration branch at its rebased tip; the result holds the upstream
      tip, origin's release branch, and HEAD before and after the rebase. */
  lemma RebasedResult(s: RepoState, branch: string, integration: string, git: Oracles)
    requires ManualRebase(s, branch, integration, git).outcome.Rebased?
    ensures var run := ManualRebase(s, branch, integration, git);
      var res := run.outcome.result;
      var m := Materialize(s, integration, branch).value;
      run.state.pushes == s.pushes + [PushRecord("origin", integration, res.forkAfterRebase, ForceWithLease)] &&
      res.upstreamCommit == m.Resolve(Upstream(branch)).value &&
      !UpstreamContained(res.upstreamCommit, res.forkBeforeRebase, git) &&
      res.forkBeforeRebase == m.heads[integration] &&
      git.rebase(res.forkBeforeRebase, res.upstreamCommit) == Some(res.forkAfterRebase) &&
      run.state.heads[integration] == res.forkAfterRebase &&
      res.forkCommit == run.state.Resolve(Origin(branch)).value
  {
    var m := Materialize(s, integration, branch).value;
    var latest := m.Resolve(Upstream(branch)).value;
    var step := RebaseStepOf(m, Upstream(branch), git);
    assert step.Replayed?;
    var r := AfterRebase(m, Upstream(branch), git);
    assert r == m.(heads := m.heads[integration := step.tip]);
    PublishOutcome(r, branch, integration, latest, m.heads[integration]);
    assert ManualPublish(r, branch, integration, latest, m.heads[integration]) == ManualRebase(s, branch, integration, git);
  }

  /** At most one push, appended to those before, and only on success or
      when the final lookup of `origin/<branch>` raised. */
  lemma PushesOnlyOnSuccess(s: RepoState, branch: string, integration: string, git: Oracles)
    ensures var run := ManualRebase(s, branch, integration, git);
      (run.state.pushes == s.pushes ||
       (integration in run.state.heads &&
        run.state.pushes == s.pushes + [PushRecord("origin", integration, run.state.heads[integration], ForceWithLease)])) &&
      (run.state.pushes != s.pushes ==>
         run.outcome.Rebased? || run.outcome == Raised(UnknownRevision(Origin(branch))))
  {
    if !s.dirty && Materialize(s, integration, branch).Some? {
      var m := Materialize(s, integration, branch).value;
      if m.Resolve(Upstream(branch)).Some? && !UpstreamContained(m.Resolve(Upstream(branch)).value, m.heads[integration], git) {
        var latest := m.Resolve(Upstream(branch)).value;
        var r := AfterRebase(m, Upstream(branch), git);
        assert r.pushes == s.pushes;
        if RebaseStepOf(m, Upstream(branch), git).Replayed? {
          PublishOutcome(r, branch, integration, latest, m.heads[integration]);
        } else {
          assert AfterRebaseAbort(r).pushes == s.pushes;
        }
      }
    }
  }
}
