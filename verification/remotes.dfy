/** What `nixpkgs_repository` does to a repository's remotes, as functions of
    the remote configuration and tracking branches before the call. Each
    configured remote is first given its URL (kept when it already has it,
    deleted and recreated when the URL differs, created when missing), then
    the wanted branches are fetched from it. */
module Remotes {
  import opened Wrappers
  import opened Text
  import opened Git

  /** The `Remote` dataclass: a URL and the branches to fetch from it. */
  datatype Remote = Remote(url: string, branches: seq<string>)

  /** A `dict[str, Remote]`, in insertion order. */
  type RemoteSpecs = seq<(string, Remote)>

  /** One remote as reconciliation sees it: its name, its URL and the set of
      branches that end up fetched from it. */
  datatype Wanted = Wanted(name: string, url: string, branches: set<string>)

  /** The branches of a list, as a set. */
  function BranchSet(bs: seq<string>): set<string>
  {
    set b | b in bs
  }

  lemma BranchSetSnoc(bs: seq<string>, b: string)
    ensures BranchSet(bs + [b]) == BranchSet(bs) + {b}
  {
    assert forall x :: x in bs + [b] <==> x in bs || x == b;
  }

  function WantedOf(specs: RemoteSpecs): (ws: seq<Wanted>)
    ensures |ws| == |specs|
    ensures forall i :: 0 <= i < |specs| ==>
      ws[i] == Wanted(specs[i].0, specs[i].1.url, BranchSet(specs[i].1.branches))
  {
    if specs == [] then []
    else [Wanted(specs[0].0, specs[0].1.url, BranchSet(specs[0].1.branches))] + WantedOf(specs[1..])
  }

  /** Names are unique (they are dict keys) and contain no `/`, so the
      tracking branches of different remotes never share a prefix. */
  predicate WellNamed(ws: seq<Wanted>)
  {
    (forall i, j :: 0 <= i < j < |ws| ==> ws[i].name != ws[j].name) &&
    (forall i :: 0 <= i < |ws| ==> '/' !in ws[i].name)
  }

  /** The two `if`s before each fetch: a remote whose URL differs is deleted
      (with its tracking branches) and then created again; a missing remote
      is created; a remote that already has the URL is left alone. */
  function Reconfigured(v: RemoteView, name: string, url: string): (r: RemoteView)
    ensures r.remotes == v.remotes[name := url]
    ensures name in v.remotes && v.remotes[name] == url ==> r == v
    ensures name in v.remotes && v.remotes[name] != url ==> r.refs == DropRemoteRefs(v.refs, name)
    ensures name !in v.remotes ==> r.refs == v.refs
  {
    var kept := if name in v.remotes && v.remotes[name] != url
                then RemoteView(v.remotes - {name}, DropRemoteRefs(v.refs, name))
                else v;
    if name !in kept.remotes then RemoteView(kept.remotes[name := url], kept.refs) else kept
  }

  /** One remote reconciled: configured, then its wanted branches fetched. */
  function Step(v: RemoteView, w: Wanted, server: Server): RemoteView
  {
    var c := Reconfigured(v, w.name, w.url);
    RemoteView(c.remotes, c.refs + TrackingRefs(w.name, w.branches, Served(server, w.url)))
  }

  /** All remotes reconciled, in dict order. */
  function Reconcile(v: RemoteView, ws: seq<Wanted>, server: Server): RemoteView
    decreases |ws|
  {
    if ws == [] then v else Reconcile(Step(v, ws[0], server), ws[1..], server)
  }

  /** The remote configuration `ws` asks for, laid over `remotes`. */
  function Configured(remotes: map<string, string>, ws: seq<Wanted>): map<string, string>
    decreases |ws|
  {
    if ws == [] then remotes else Configured(remotes[ws[0].name := ws[0].url], ws[1..])
  }

  predicate SubMap(small: map<string, Commit>, big: map<string, Commit>)
  {
    forall k :: k in small ==> k in big && big[k] == small[k]
  }

  /** Remote `w` has its URL and every branch of `w` its URL serves is
      fetched at the served tip. */
  predicate Holds(v: RemoteView, w: Wanted, server: Server)
  {
    w.name in v.remotes && v.remotes[w.name] == w.url &&
    SubMap(TrackingRefs(w.name, w.branches, Served(server, w.url)), v.refs)
  }

  predicate Settled(v: RemoteView, ws: seq<Wanted>, server: Server)
  {
    forall i :: 0 <= i < |ws| ==> Holds(v, ws[i], server)
  }

  /** Afterwards the remote configuration is exactly the old one with every
      configured name mapped to its configured URL. */
  lemma {:induction false} ReconcileRemotes(v: RemoteView, ws: seq<Wanted>, server: Server)
    ensures Reconcile(v, ws, server).remotes == Configured(v.remotes, ws)
    decreases |ws|
  {
    if ws != [] {
      ReconcileRemotes(Step(v, ws[0], server), ws[1..], server);
    }
  }

  lemma PrefixesDiffer(k: string, n: string, m: string)
    requires '/' !in n && '/' !in m && n != m
    requires StartsWith(k, n + "/")
    ensures !StartsWith(k, m + "/")
  {
    if |n| < |m| {
      assert k[|n|] == (n + "/")[|n|] == '/';
      assert (m + "/")[|n|] == m[|n|] != '/';
    } else if |m| < |n| {
      assert k[|m|] == (n + "/")[|m|] == n[|m|] != '/';
      assert (m + "/")[|m|] == '/';
    } else {
      assert k[..|n|] == n;
    }
  }

  /** Reconciling other remotes leaves an already reconciled remote alone. */
  lemma {:induction false} OthersPreserve(v: RemoteView, w: Wanted, ws: seq<Wanted>, server: Server)
    requires Holds(v, w, server) && '/' !in w.name
    requires forall i :: 0 <= i < |ws| ==> ws[i].name != w.name && '/' !in ws[i].name
    ensures Holds(Reconcile(v, ws, server), w, server)
    decreases |ws|
  {
    if ws != [] {
      var x := ws[0];
      var s := Step(v, x, server);
      var mine := TrackingRefs(w.name, w.branches, Served(server, w.url));
      var theirs := TrackingRefs(x.name, x.branches, Served(server, x.url));
      forall k | k in mine ensures k in s.refs && s.refs[k] == mine[k] {
        PrefixesDiffer(k, w.name, x.name);
        if k in theirs {
          PrefixesDiffer(k, w.name, x.name);
        }
      }
      OthersPreserve(s, w, ws[1..], server);
    }
  }

  /** Every configured remote ends with its URL and every branch its URL
      serves fetched — whichever other branches could not be fetched. */
  lemma {:induction false} ReconcileSettles(v: RemoteView, ws: seq<Wanted>, server: Server)
    requires WellNamed(ws)
    ensures Settled(Reconcile(v, ws, server), ws, server)
    decreases |ws|
  {
    if ws != [] {
      var s := Step(v, ws[0], server);
      assert Holds(s, ws[0], server);
      ReconcileSettles(s, ws[1..], server);
      OthersPreserve(s, ws[0], ws[1..], server);
      forall i | 0 <= i < |ws| ensures Holds(Reconcile(v, ws, server), ws[i], server) {
        if i > 0 {
          assert ws[i] == ws[1..][i - 1];
        }
      }
    }
  }

  /** A repository that already is as configured is not changed. */
  lemma {:induction false} SettledIsFixpoint(v: RemoteView, ws: seq<Wanted>, server: Server)
    requires Settled(v, ws, server)
    ensures Reconcile(v, ws, server) == v
  {
    if ws != [] {
      var w := ws[0];
      assert Holds(v, w, server);
      var t := TrackingRefs(w.name, w.branches, Served(server, w.url));
      assert v.refs + t == v.refs;
      assert Step(v, w, server) == v;
      forall i | 0 <= i < |ws[1..]| ensures Holds(v, ws[1..][i], server) {
        assert ws[1..][i] == ws[i + 1];
      }
      SettledIsFixpoint(v, ws[1..], server);
    }
  }

  /** Running the reconciliation a second time changes nothing. */
  lemma ReconcileIdempotent(v: RemoteView, ws: seq<Wanted>, server: Server)
    requires WellNamed(ws)
    ensures Reconcile(Reconcile(v, ws, server), ws, server) == Reconcile(v, ws, server)
  {
    ReconcileSettles(v, ws, server);
    SettledIsFixpoint(Reconcile(v, ws, server), ws, server);
  }

  /** A repository state with its remote configuration and tracking branches
      replaced. */
  function WithView(s: RepoState, v: RemoteView): (r: RepoState)
    ensures r.View() == v
  {
    s.(remotes := v.remotes, refs := v.refs)
  }

  /** Fetching one more branch adds its tracking branch, if the URL serves
      it. */
  lemma TrackingRefsAdd(remote: string, bs: set<string>, b: string, served: map<string, Commit>)
    ensures TrackingRefs(remote, bs + {b}, served) ==
      if b in served then TrackingRefs(remote, bs, served)[RemoteRef(remote, b) := served[b]]
      else TrackingRefs(remote, bs, served)
  {
    var big := TrackingRefs(remote, bs + {b}, served);
    var small := TrackingRefs(remote, bs, served);
    forall k | k in big ensures k in small || (b in served && k == RemoteRef(remote, b)) {
    }
    forall k | k in small ensures k in big && big[k] == small[k] {
      var x :| x in bs && x in served && k == RemoteRef(remote, x);
    }
  }

  /** The two `if`s of every variant's loop, on a repository: afterwards the
      remote has the URL, recreated when it differed. */
  method Reconfigure(repo: Repo, name: string, url: string)
    modifies repo
    ensures repo.State() == WithView(old(repo.State()), Reconfigured(old(repo.State()).View(), name, url))
  {
    if name in repo.remotes && repo.remotes[name] != url {
      repo.DeleteRemote(name);
    }
    if name !in repo.remotes {
      repo.CreateRemote(name, url);
    }
  }

  lemma UnionUpdate(a: map<string, Commit>, b: map<string, Commit>, k: string, c: Commit)
    ensures (a + b)[k := c] == a + b[k := c]
  {
  }

  /** The tracking branches fetched from remote `name` after the first `j`
      listed branches. */
  function FetchedUpTo(c: RepoState, name: string, url: string, branches: seq<string>, j: int, server: Server): RepoState
    requires 0 <= j <= |branches|
  {
    c.(refs := c.refs + TrackingRefs(name, BranchSet(branches[..j]), Served(server, url)))
  }

  /** Fetching the next listed branch moves from `j` fetched branches to
      `j + 1`; the fetch fails exactly when the URL does not serve it. */
  lemma FetchOneMore(c: RepoState, name: string, url: string, branches: seq<string>, j: int, server: Server)
    requires name in c.remotes && c.remotes[name] == url && 0 <= j < |branches|
    ensures var s := FetchedUpTo(c, name, url, branches, j, server);
      && (FetchBranchOk(s, name, branches[j], server) <==> branches[j] in Served(server, url))
      && AfterFetchBranch(s, name, branches[j], server) == FetchedUpTo(c, name, url, branches, j + 1, server)
  {
    var branch, served := branches[j], Served(server, url);
    var t := TrackingRefs(name, BranchSet(branches[..j]), served);
    TrackingRefsAdd(name, BranchSet(branches[..j]), branch, served);
    assert branches[..j + 1] == branches[..j] + [branch];
    BranchSetSnoc(branches[..j], branch);
    if branch in served {
      UnionUpdate(c.refs, t, RemoteRef(name, branch), served[branch]);
    }
  }

  /** Fetching branches one by one from a remote that has URL `url`,
      ignoring the fetches that fail, adds the tracking branches of exactly
      the listed branches the URL serves. */
  method FetchEachIgnoringFailures(repo: Repo, name: string, url: string, branches: seq<string>, server: Server)
    requires name in repo.remotes && repo.remotes[name] == url
    modifies repo
    ensures repo.State() == old(repo.State()).(refs := old(repo.refs) + TrackingRefs(name, BranchSet(branches), Served(server, url)))
  {
    ghost var c := repo.State();
    for j := 0 to |branches|
      invariant repo.State() == FetchedUpTo(c, name, url, branches, j, server)
    {
      FetchOneMore(c, name, url, branches, j, server);
      // A failed fetch (the last day's branch may not exist yet) is ignored.
      var _ := repo.FetchBranch(name, branches[j], server);
    }
    assert branches[..|branches|] == branches;
  }

  /** One iteration of the daily job's outer loop on a repository: set the
      remote's URL, then fetch its branches one by one, ignoring failures. */
  method ConfigureAndFetch(repo: Repo, name: string, url: string, branches: seq<string>, server: Server)
    modifies repo
    ensures repo.State() ==
      WithView(old(repo.State()), Step(old(repo.State()).View(), Wanted(name, url, BranchSet(branches)), server))
  {
    Reconfigure(repo, name, url);
    FetchEachIgnoringFailures(repo, name, url, branches, server);
  }

  /** Reconciling the remotes from `i` on is one step and then the rest. */
  lemma ReconcileFrom(v: RemoteView, ws: seq<Wanted>, i: int, server: Server)
    requires 0 <= i < |ws|
    ensures Reconcile(v, ws[i..], server) == Reconcile(Step(v, ws[i], server), ws[i + 1..], server)
  {
    assert ws[i..][0] == ws[i] && ws[i..][1..] == ws[i + 1..];
  }
}
