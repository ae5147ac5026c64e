/** The hosting side (GitHub) as the merge job sees it: each repository is
    its list of branch names, in the order the API lists them, and a pull
    request collects the comments posted on it. */
module Hosting {

  /** `s` with every occurrence of `x` removed, order kept. */
  function Without(s: seq<string>, x: string): (r: seq<string>)
    ensures forall y :: y in r <==> y in s && y != x
    ensures |r| <= |s|
  {
    if s == [] then []
    else if s[0] == x then Without(s[1..], x)
    else [s[0]] + Without(s[1..], x)
  }

  lemma {:induction false} WithoutAbsent(s: seq<string>, x: string)
    requires x !in s
    ensures Without(s, x) == s
  {
    if s != [] {
      WithoutAbsent(s[1..], x);
    }
  }

  lemma {:induction false} WithoutConcat(a: seq<string>, b: seq<string>, x: string)
    ensures Without(a + b, x) == Without(a, x) + Without(b, x)
  {
    if a != [] {
      var ab := a + b;
      assert ab[0] == a[0] && ab[1..] == a[1..] + b;
      WithoutConcat(a[1..], b, x);
      if a[0] == x {
        assert Without(ab, x) == Without(ab[1..], x);
      } else {
        assert Without(ab, x) == [a[0]] + Without(ab[1..], x);
        assert Without(a, x) == [a[0]] + Without(a[1..], x);
        assert [a[0]] + (Without(a[1..], x) + Without(b, x)) == ([a[0]] + Without(a[1..], x)) + Without(b, x);
      }
    } else {
      assert a + b == b;
    }
  }

  predicate Distinct(s: seq<string>)
  {
    forall i, j :: 0 <= i < j < |s| ==> s[i] != s[j]
  }

  lemma {:induction false} DistinctWithout(s: seq<string>, x: string)
    requires Distinct(s)
    ensures Distinct(Without(s, x))
  {
    if s != [] {
      DistinctWithout(s[1..], x);
      if s[0] != x {
        var w := Without(s[1..], x);
        forall k | 0 <= k < |s[1..]| ensures s[1..][k] != s[0] {
          assert s[1..][k] == s[k + 1];
        }
        assert s[0] !in w;
        var r := [s[0]] + w;
        forall i, j | 0 <= i < j < |r| ensures r[i] != r[j] {
          if i == 0 { assert r[j] == w[j - 1]; assert r[j] in w; }
          else { assert r[i] == w[i - 1] && r[j] == w[j - 1]; }
        }
      }
    }
  }

  /** In a list without repetitions, the entry at `i` occurs neither before
      nor after `i`. */
  lemma DistinctAt(s: seq<string>, i: int, before: seq<string>)
    requires Distinct(s) && 0 <= i < |s|
    requires forall y :: y in before ==> y in s[..i]
    ensures s[i] !in before && s[i] !in s[i + 1..]
  {
    forall k | 0 <= k < i ensures s[..i][k] != s[i] {
      assert s[..i][k] == s[k];
    }
    var after := s[i + 1..];
    forall k | 0 <= k < |after| ensures after[k] != s[i] {
      assert after[k] == s[i + 1 + k];
    }
  }

  /** Branch names are unique within a repository, so deleting one removes
      exactly that entry. */
  lemma WithoutDistinct(a: seq<string>, x: string, b: seq<string>)
    requires x !in a && x !in b
    ensures Without(a + [x] + b, x) == a + b
  {
    WithoutConcat(a + [x], b, x);
    WithoutConcat(a, [x], x);
    WithoutAbsent(a, x);
    WithoutAbsent(b, x);
    assert [x][1..] == [];
    assert Without([x], x) == [];
    assert Without(a + [x], x) == a;
  }

  /** One hosting repository. */
  class Host {
    var branches: seq<string>

    constructor (branches: seq<string>)
      ensures this.branches == branches
    {
      this.branches := branches;
    }

    /** `repo.get_git_ref("heads/<name>").delete()`; the API answers with an
        error (raised by the client) when there is no such branch. */
    method DeleteBranch(name: string) returns (ok: bool)
      modifies this
      ensures ok == (name in old(branches))
      ensures branches == Without(old(branches), name)
      ensures !ok ==> branches == old(branches)
    {
      ok := name in branches;
      if !ok {
        WithoutAbsent(branches, name);
      }
      branches := Without(branches, name);
    }
  }

  /** The merged fc-nixos pull request: its base and head branches and the
      comments posted on it. */
  class PullRequest {
    const baseRef: string
    const headRef: string
    var comments: seq<string>

    constructor (baseRef: string, headRef: string)
      ensures this.baseRef == baseRef && this.headRef == headRef && comments == []
    {
      this.baseRef, this.headRef := baseRef, headRef;
      comments := [];
    }

    /** `pr.create_issue_comment(text)`. */
    method Comment(text: string)
      modifies this
      ensures comments == old(comments) + [text]
    {
      comments := comments + [text];
    }
  }
}
