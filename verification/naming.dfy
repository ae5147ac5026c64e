/** Branch names the update scripts derive, and the split-and-index parsers
    that read a platform version and a date back out of them. */
module Naming {
  import opened Wrappers
  import opened Text
  import opened Dates

  /** First path component of every integration branch. */
  const IntegrationPrefix := "nixpkgs-auto-update"

  /** Upstream NixOS release branch of a platform version: `nixos-<v>`. */
  function NixosBranch(version: string): string
  {
    "nixos-" + version
  }

  /** fc-nixos development branch of a platform version: `fc-<v>-dev`. */
  function FcDevBranch(version: string): string
  {
    "fc-" + version + "-dev"
  }

  /** `INTEGRATION_BRANCH_SCHEME.format(target, now)`, which is also the
      f-string the daily job builds: `nixpkgs-auto-update/<target>/<now>`. */
  function IntegrationBranch(target: string, now: string): string
  {
    IntegrationPrefix + "/" + target + "/" + now
  }

  /** `name.startswith("nixpkgs-auto-update/")`. */
  predicate IsIntegrationBranch(name: string)
  {
    StartsWith(name, IntegrationPrefix + "/")
  }

  /** `base.split("-")[1]`: the platform version of an fc-nixos base branch;
      `None` where Python raises IndexError (no `-` at all). */
  function PlatformVersionOf(base: string): (r: Option<string>)
    ensures r.Some? <==> '-' in base
    ensures r.Some? ==> '-' !in r.value
  {
    var parts := Split(base, '-');
    if |parts| < 2 then None else Some(parts[1])
  }

  /** `date.fromisoformat(name.split("/")[2])`: the date embedded in an
      integration branch name; `None` where Python raises (fewer than three
      components, or a third component that is not an ISO date). */
  function BranchDate(name: string): (r: Option<Date>)
    ensures r.Some? ==> Valid(r.value) && Count(name, '/') >= 2
  {
    var parts := Split(name, '/');
    if |parts| < 3 then None else FromIsoFormat(parts[2])
  }

  lemma IsoFormatHasNoSlash(d: Date)
    requires Valid(d)
    ensures '/' !in IsoFormat(d)
  {
    var s := IsoFormat(d);
    assert s == Padded(d.year, 4) + "-" + Padded(d.month, 2) + "-" + Padded(d.day, 2);
    forall i | 0 <= i < |s| ensures s[i] != '/' {
      if i < 4 { assert s[i] == Padded(d.year, 4)[i]; }
      else if 4 < i < 7 { assert s[i] == Padded(d.month, 2)[i - 5]; }
      else if 7 < i { assert s[i] == Padded(d.day, 2)[i - 8]; }
    }
  }

  /** Round trip of the branch scheme: for a target without `/`, the third
      `/`-component of the integration branch is the ISO date it was built
      from, and parsing it gives that date back. */
  lemma IntegrationBranchRoundTrip(target: string, d: Date)
    requires Valid(d) && '/' !in target
    ensures Split(IntegrationBranch(target, IsoFormat(d)), '/') == [IntegrationPrefix, target, IsoFormat(d)]
    ensures BranchDate(IntegrationBranch(target, IsoFormat(d))) == Some(d)
    ensures IsIntegrationBranch(IntegrationBranch(target, IsoFormat(d)))
  {
    IsoFormatHasNoSlash(d);
    assert IntegrationBranch(target, IsoFormat(d)) ==
      IntegrationPrefix + ['/'] + target + ['/'] + IsoFormat(d);
    SplitThree(IntegrationPrefix, target, IsoFormat(d), '/');
    ParseIsoFormat(d);
  }

  /** Conversely, a name of exactly three components that starts with the
      prefix and carries a date is the scheme applied to its middle component
      and to that date. */
  lemma ParsedBranchIsScheme(name: string)
    requires BranchDate(name).Some?
    requires |Split(name, '/')| == 3 && Split(name, '/')[0] == IntegrationPrefix
    ensures name == IntegrationBranch(Split(name, '/')[1], IsoFormat(BranchDate(name).value))
  {
    var parts := Split(name, '/');
    JoinSplit(name, '/');
    FormatParsedIso(parts[2]);
    assert Join(parts, "/") == parts[0] + "/" + Join(parts[1..], "/");
    assert Join(parts[1..], "/") == parts[1] + "/" + Join(parts[2..], "/");
  }

  /** Round trip of the version scheme: for a version without `-`, the second
      `-`-component of `fc-<v>-dev` is `v` again, so the nixpkgs target the
      merge job derives from the fc-nixos base branch is `nixos-<v>`. */
  lemma PlatformVersionRoundTrip(version: string)
    requires '-' !in version
    ensures PlatformVersionOf(FcDevBranch(version)) == Some(version)
    ensures NixosBranch(PlatformVersionOf(FcDevBranch(version)).value) == NixosBranch(version)
  {
    assert FcDevBranch(version) == "fc" + ['-'] + version + ['-'] + "dev";
    SplitThree("fc", version, "dev", '-');
  }
}
