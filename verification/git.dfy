/** The git repository the scripts drive through GitPython, reduced to the
    state their decisions read and write. The algorithms git runs itself
    (merge-base search, rebasing, tree diffs) and what a remote serves are
    parameters: `Oracles` and `Server`. Every git call is a function from
    the repository state before it to the state after it, and a method of
    `Repo` that performs it in place. */
module Git {
  import opened Wrappers
  import opened Text

  /** A commit, by its hex SHA. */
  type Commit = string

  /** For each remote URL, the branches it serves and their tips. */
  type Server = map<string, map<string, Commit>>

  /** git's own algorithms, as the model's inputs. */
  datatype Oracles = Oracles(
    /** `repo.merge_base(a, b)`: the merge bases of two commits. */
    mergeBase: (Commit, Commit) -> set<Commit>,
    /** `git rebase`: the new tip when `head` replays cleanly onto `onto`,
        `None` when it stops on a conflict. */
    rebase: (Commit, Commit) -> Option<Commit>,
    /** `git diff-index <ref>` prints nothing: the work tree at `head`
        equals the tree of `other`. */
    sameTree: (Commit, Commit) -> bool)

  datatype PushMode = Force | ForceWithLease

  /** One `git push`: which local branch went to which remote, at which
      commit, and how. */
  datatype PushRecord = PushRecord(remote: string, branch: string, commit: Commit, mode: PushMode)

  /** One `git commit`: the new commit, its message and the paths staged. */
  datatype CommitRecord = CommitRecord(id: Commit, message: string, paths: set<string>)

  /** The name git gives the remote-tracking branch of `branch` on `remote`. */
  function RemoteRef(remote: string, branch: string): string
  {
    remote + "/" + branch
  }

  /** `git remote rm name` also drops the remote's tracking branches. */
  function DropRemoteRefs(refs: map<string, Commit>, name: string): (r: map<string, Commit>)
    ensures forall k :: k in r <==> k in refs && !StartsWith(k, name + "/")
    ensures forall k :: k in r ==> r[k] == refs[k]
  {
    map k | k in refs && !StartsWith(k, name + "/") :: refs[k]
  }

  /** The remote-tracking branches that fetching `branches` of `remote`
      writes, given the tips the remote's URL serves: one per served branch,
      none for a branch the URL does not serve. */
  function TrackingRefs(remote: string, branches: set<string>, served: map<string, Commit>): (r: map<string, Commit>)
    ensures forall b :: b in branches && b in served ==> RemoteRef(remote, b) in r && r[RemoteRef(remote, b)] == served[b]
    ensures forall k :: k in r ==> StartsWith(k, remote + "/")
    ensures forall k :: k in r ==> exists b :: b in branches && b in served && k == RemoteRef(remote, b)
  {
    assert forall b1, b2 :: b1 in served && b2 in served && RemoteRef(remote, b1) == RemoteRef(remote, b2) ==> b1 == b2 by {
      forall b1, b2 | b1 in served && b2 in served && RemoteRef(remote, b1) == RemoteRef(remote, b2) ensures b1 == b2 {
        assert b1 == RemoteRef(remote, b1)[|remote| + 1..];
        assert b2 == RemoteRef(remote, b2)[|remote| + 1..];
      }
    }
    map b | b in branches && b in served :: RemoteRef(remote, b) := served[b]
  }

  /** The branches a remote URL serves; nothing when it cannot be reached. */
  function Served(server: Server, url: string): map<string, Commit>
  {
    if url in server then server[url] else map[]
  }

  /** The remote configuration and the remote-tracking branches of a
      repository: what reconciling remotes reads and writes. */
  datatype RemoteView = RemoteView(remotes: map<string, string>, refs: map<string, Commit>)

  /** A repository at one moment. `refs` holds the remote-tracking branches
      (`origin/<branch>`), `heads` the local branches, `current` the branch
      HEAD is on; `pushes` and `commits` record what the run sent and made. */
  datatype RepoState = RepoState(
    remotes: map<string, string>,
    heads: map<string, Commit>,
    refs: map<string, Commit>,
    current: string,
    dirty: bool,
    rebaseInProgress: bool,
    staged: set<string>,
    files: map<string, string>,
    commits: seq<CommitRecord>,
    pushes: seq<PushRecord>)
  {
    /** A stopped rebase leaves conflicts in the index, so the tree is dirty. */
    predicate Valid()
    {
      rebaseInProgress ==> dirty
    }

    function View(): RemoteView
    {
      RemoteView(remotes, refs)
    }

    /** The commit HEAD points at, if the current branch has one. */
    function HeadCommit(): (c: Option<Commit>)
      ensures c.Some? <==> current in heads
      ensures c.Some? ==> c.value == heads[current]
    {
      if current in heads then Some(heads[current]) else None
    }

    /** How git resolves a revision name: a local branch first, then a
        remote-tracking branch. */
    function Resolve(rev: string): (c: Option<Commit>)
      ensures c.Some? <==> rev in heads || rev in refs
      ensures rev in heads ==> c == Some(heads[rev])
      ensures rev !in heads && rev in refs ==> c == Some(refs[rev])
    {
      if rev in heads then Some(heads[rev])
      else if rev in refs then Some(refs[rev])
      else None
    }
  }

  /** `Repo.init(directory, mkdir=True)`: no remotes, no branches, HEAD on
      the unborn `master`. */
  const EmptyRepo := RepoState(map[], map[], map[], "master", false, false, {}, map[], [], [])

  // ----- Each git call as a function of the state before it -----

  /** `repo.delete_remote(name)`. */
  function AfterDeleteRemote(s: RepoState, name: string): RepoState
  {
    s.(remotes := s.remotes - {name}, refs := DropRemoteRefs(s.refs, name))
  }

  /** `repo.create_remote(name, url)`. */
  function AfterCreateRemote(s: RepoState, name: string, url: string): RepoState
  {
    s.(remotes := s.remotes[name := url])
  }

  /** `remote.fetch(refspec=branch)` succeeds (no GitCommandError) when the
      remote exists and its URL serves the branch. */
  predicate FetchBranchOk(s: RepoState, name: string, branch: string, server: Server)
  {
    name in s.remotes && s.remotes[name] in server && branch in server[s.remotes[name]]
  }

  /** `remote.fetch(refspec=branch)`: the tracking branch `name/branch` is
      set to the served tip; a failed fetch changes nothing. */
  function AfterFetchBranch(s: RepoState, name: string, branch: string, server: Server): RepoState
  {
    if FetchBranchOk(s, name, branch, server)
    then s.(refs := s.refs[RemoteRef(name, branch) := server[s.remotes[name]][branch]])
    else s
  }

  /** `remote.fetch()` with the default refspec succeeds when the remote
      exists and its URL can be reached. */
  predicate FetchAllOk(s: RepoState, name: string, server: Server)
  {
    name in s.remotes && s.remotes[name] in server
  }

  /** `remote.fetch()`: every served branch lands in a tracking branch. */
  function AfterFetchAll(s: RepoState, name: string, server: Server): RepoState
  {
    if FetchAllOk(s, name, server)
    then s.(refs := s.refs + TrackingRefs(name, server[s.remotes[name]].Keys, server[s.remotes[name]]))
    else s
  }

  /** `repo.create_head(name, rev)`: a new local branch at what `rev`
      resolves to; raises when it resolves to nothing. */
  function AfterCreateHead(s: RepoState, name: string, rev: string): RepoState
  {
    match s.Resolve(rev)
    case Some(c) => s.(heads := s.heads[name := c])
    case None => s
  }

  /** `git checkout name` of an existing local branch. */
  function AfterCheckout(s: RepoState, name: string): RepoState
  {
    if name in s.heads then s.(current := name) else s
  }

  /** How a `git rebase` call ends. */
  datatype RebaseStep = Replayed(tip: Commit) | Conflicted | Refused

  /** `git rebase onto` of the current branch. git refuses to start on a
      dirty tree, during another rebase, on an unborn branch or an unknown
      revision; a started rebase moves the branch to the replayed tip or
      stops on a conflict. */
  function RebaseStepOf(s: RepoState, onto: string, git: Oracles): (step: RebaseStep)
    ensures step.Refused? <==> s.dirty || s.rebaseInProgress || s.HeadCommit().None? || s.Resolve(onto).None?
    ensures !step.Refused? ==> (step.Replayed? <==> git.rebase(s.HeadCommit().value, s.Resolve(onto).value).Some?)
    ensures step.Replayed? ==> git.rebase(s.HeadCommit().value, s.Resolve(onto).value) == Some(step.tip)
  {
    if s.dirty || s.rebaseInProgress || s.HeadCommit().None? || s.Resolve(onto).None? then Refused
    else match git.rebase(s.HeadCommit().value, s.Resolve(onto).value)
      case Some(tip) => Replayed(tip)
      case None => Conflicted
  }

  /** The repository after `git rebase onto`: the branch moved to the new
      tip, or a conflicted rebase left in progress (the branch itself only
      moves when a rebase completes), or nothing at all. */
  function AfterRebase(s: RepoState, onto: string, git: Oracles): RepoState
  {
    match RebaseStepOf(s, onto, git)
    case Replayed(tip) => s.(heads := s.heads[s.current := tip])
    case Conflicted => s.(dirty := true, rebaseInProgress := true)
    case Refused => s
  }

  /** `git rebase --abort`: the branch as before and a clean tree; git
      fails when no rebase is in progress. */
  function AfterRebaseAbort(s: RepoState): RepoState
  {
    if s.rebaseInProgress then s.(dirty := false, rebaseInProgress := false) else s
  }

  predicate PushOk(s: RepoState, remote: string, branch: string)
  {
    remote in s.remotes && branch in s.heads
  }

  /** `git push remote branch` with the given force mode. */
  function AfterPush(s: RepoState, remote: string, branch: string, mode: PushMode): RepoState
  {
    if PushOk(s, remote, branch)
    then s.(pushes := s.pushes + [PushRecord(remote, branch, s.heads[branch], mode)])
    else s
  }

  /** `git add paths`. */
  function AfterAdd(s: RepoState, paths: set<string>): RepoState
  {
    s.(staged := s.staged + paths)
  }

  /** `git commit -m message`: the staged paths become commit `id` on the
      current branch. */
  function AfterCommit(s: RepoState, message: string, id: Commit): RepoState
  {
    s.(commits := s.commits + [CommitRecord(id, message, s.staged)],
       heads := s.heads[s.current := id],
       staged := {})
  }

  /** A repository checkout, changed in place by git calls. */
  class Repo {
    var remotes: map<string, string>
    var heads: map<string, Commit>
    var refs: map<string, Commit>
    var current: string
    var dirty: bool
    var rebaseInProgress: bool
    var staged: set<string>
    var files: map<string, string>
    var commits: seq<CommitRecord>
    var pushes: seq<PushRecord>

    function State(): RepoState
      reads this
    {
      RepoState(remotes, heads, refs, current, dirty, rebaseInProgress, staged, files, commits, pushes)
    }

    /** `Repo.init(directory, mkdir=True)`. */
    constructor Init()
      ensures State() == EmptyRepo
    {
      remotes, heads, refs, current := map[], map[], map[], "master";
      dirty, rebaseInProgress, staged, files := false, false, {}, map[];
      commits, pushes := [], [];
    }

    /** A ref lookup by name (`repo.refs[rev]`, `rev in repo.refs`, or the
        revision git resolves on the command line). */
    method Lookup(rev: string) returns (c: Option<Commit>)
      ensures c == State().Resolve(rev)
    {
      c := State().Resolve(rev);
    }

    /** `repo.is_dirty()`. */
    method IsDirty() returns (d: bool)
      ensures d == dirty
    {
      d := dirty;
    }

    method DeleteRemote(name: string)
      modifies this
      ensures State() == AfterDeleteRemote(old(State()), name)
    {
      remotes := remotes - {name};
      refs := DropRemoteRefs(refs, name);
    }

    method CreateRemote(name: string, url: string)
      modifies this
      ensures State() == AfterCreateRemote(old(State()), name, url)
    {
      remotes := remotes[name := url];
    }

    method FetchBranch(name: string, branch: string, server: Server) returns (ok: bool)
      modifies this
      ensures ok == FetchBranchOk(old(State()), name, branch, server)
      ensures State() == AfterFetchBranch(old(State()), name, branch, server)
    {
      ok := name in remotes && remotes[name] in server && branch in server[remotes[name]];
      if ok {
        refs := refs[RemoteRef(name, branch) := server[remotes[name]][branch]];
      }
    }

    method FetchAll(name: string, server: Server) returns (ok: bool)
      modifies this
      ensures ok == FetchAllOk(old(State()), name, server)
      ensures State() == AfterFetchAll(old(State()), name, server)
    {
      ok := name in remotes && remotes[name] in server;
      if ok {
        refs := refs + TrackingRefs(name, server[remotes[name]].Keys, server[remotes[name]]);
      }
    }

    method CreateHead(name: string, rev: string) returns (ok: bool)
      modifies this
      ensures ok == old(State()).Resolve(rev).Some?
      ensures State() == AfterCreateHead(old(State()), name, rev)
    {
      var c := State().Resolve(rev);
      ok := c.Some?;
      if ok {
        heads := heads[name := c.value];
      }
    }

    method Checkout(name: string) returns (ok: bool)
      modifies this
      ensures ok == (name in old(heads))
      ensures State() == AfterCheckout(old(State()), name)
    {
      ok := name in heads;
      if ok {
        current := name;
      }
    }

    method Rebase(onto: string, git: Oracles) returns (step: RebaseStep)
      modifies this
      ensures step == RebaseStepOf(old(State()), onto, git)
      ensures State() == AfterRebase(old(State()), onto, git)
    {
      step := RebaseStepOf(State(), onto, git);
      match step
      case Replayed(tip) =>
        heads := heads[current := tip];
      case Conflicted =>
        dirty, rebaseInProgress := true, true;
      case Refused =>
    }

    method RebaseAbort() returns (ok: bool)
      modifies this
      ensures ok == old(rebaseInProgress)
      ensures State() == AfterRebaseAbort(old(State()))
    {
      ok := rebaseInProgress;
      if ok {
        dirty, rebaseInProgress := false, false;
      }
    }

    method Push(remote: string, branch: string, mode: PushMode) returns (ok: bool)
      modifies this
      ensures ok == PushOk(old(State()), remote, branch)
      ensures State() == AfterPush(old(State()), remote, branch, mode)
    {
      ok := remote in remotes && branch in heads;
      if ok {
        pushes := pushes + [PushRecord(remote, branch, heads[branch], mode)];
      }
    }

    /** Writes a file of the work tree. */
    method WriteFile(path: string, text: string)
      modifies this
      ensures State() == old(State()).(files := old(files)[path := text])
    {
      files := files[path := text];
    }

    method Add(paths: set<string>)
      modifies this
      ensures State() == AfterAdd(old(State()), paths)
    {
      staged := staged + paths;
    }

    method Commit(message: string, id: Commit)
      modifies this
      ensures State() == AfterCommit(old(State()), message, id)
    {
      commits := commits + [CommitRecord(id, message, staged)];
      heads := heads[current := id];
      staged := {};
    }
  }
}
