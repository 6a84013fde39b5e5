/**
 Choosing a release out of an update manifest: those of the wanted channel with
 an asset for this machine, sorted newest first, of which the first is taken.
 */
module ReleaseSelection {
  import opened Common
  import opened Order
  import opened SemVer
  import opened Text

  datatype Target = Target(platform: string, arch: string)

  datatype Asset = Asset(platform: string, arch: string, url: string, sha256: string, binaryName: Option<string>)

  datatype Release = Release(version: string, channel: Option<string>, assets: seq<Asset>)

  datatype Manifest = Manifest(schema: Option<string>, defaultChannel: Option<string>, releases: seq<Release>)

  datatype ResolvedUpdate = ResolvedUpdate(version: string, channel: string, url: string, sha256: string,
                                           target: Target)

  datatype SelectError = UnsupportedSchema | NoMatchingRelease | WrongBinaryName | SortPanicked

  datatype Candidate = Candidate(release: Release, channel: string, asset: Asset)

  const DEFAULT_CHANNEL := "stable"
  const SCHEMA := "speechmesh/update-manifest.v1"

  function CanonicalPlatform(value: string): string {
    var v := AsciiLower(Trim(value));
    if v in {"darwin", "macos", "mac", "osx"} then "macos" else v
  }

  function CanonicalArch(value: string): string {
    var v := AsciiLower(Trim(value));
    if v in {"x86_64", "amd64"} then "x86_64" else if v in {"aarch64", "arm64"} then "aarch64" else v
  }

  predicate AssetMatchesTarget(asset: Asset, target: Target) {
    CanonicalPlatform(asset.platform) == target.platform && CanonicalArch(asset.arch) == target.arch
  }

  function FindAsset(assets: seq<Asset>, target: Target): Option<Asset> {
    if assets == [] then None
    else if AssetMatchesTarget(assets[0], target) then Some(assets[0])
    else FindAsset(assets[1..], target)
  }

  /** The asset found is the first for the target; none is found only when there is none. */
  lemma {:induction false} FindAssetIsFirst(assets: seq<Asset>, target: Target) returns (i: nat)
    ensures i <= |assets| && FindAsset(assets, target) == if i < |assets| then Some(assets[i]) else None
    ensures i < |assets| ==> AssetMatchesTarget(assets[i], target)
    ensures forall j :: 0 <= j < i ==> !AssetMatchesTarget(assets[j], target)
  {
    hide AssetMatchesTarget;
    if assets == [] || AssetMatchesTarget(assets[0], target) {
      i := 0;
    } else {
      i := FindAssetIsFirst(assets[1..], target);
      i := i + 1;
    }
  }

  function DefaultChannel(m: Manifest): string {
    if m.defaultChannel.Some? then m.defaultChannel.value else DEFAULT_CHANNEL
  }

  function RequestedChannel(m: Manifest, requested: string): string {
    if Trim(requested) == "" then DefaultChannel(m) else Trim(requested)
  }

  function ReleaseChannel(m: Manifest, release: Release): string {
    if release.channel.Some? then release.channel.value else DefaultChannel(m)
  }

  /** What the filter makes of one release. */
  function CandidateOf(m: Manifest, requested: string, target: Target, release: Release): Option<Candidate> {
    if AsciiLower(ReleaseChannel(m, release)) != AsciiLower(RequestedChannel(m, requested)) then None
    else
      var asset := FindAsset(release.assets, target);
      if asset.None? then None else Some(Candidate(release, ReleaseChannel(m, release), asset.value))
  }

  predicate Matches(m: Manifest, requested: string, target: Target, k: nat)
    requires k < |m.releases|
  {
    CandidateOf(m, requested, target, m.releases[k]).Some?
  }

  /** The candidates among releases `from..`, in manifest order. */
  function Candidates(m: Manifest, requested: string, target: Target, from: nat): seq<Candidate>
    requires from <= |m.releases|
    decreases |m.releases| - from
  {
    if from == |m.releases| then []
    else
      var c := CandidateOf(m, requested, target, m.releases[from]);
      (if c.Some? then [c.value] else []) + Candidates(m, requested, target, from + 1)
  }

  function CompareManifestVersions(parse: Parser, left: string, right: string): int {
    if parse(left).Some? && parse(right).Some? then CompareVersion(parse(left).value, parse(right).value)
    else CompareString(left, right)
  }

  /** Newest first. */
  function NewestFirst(parse: Parser): (Candidate, Candidate) -> int {
    (a: Candidate, b: Candidate) => CompareManifestVersions(parse, b.release.version, a.release.version)
  }

  function Resolve(c: Candidate): Result<ResolvedUpdate, SelectError> {
    if c.asset.binaryName.Some? && c.asset.binaryName.value != "speechmesh" then Err(WrongBinaryName)
    else Ok(ResolvedUpdate(c.release.version, c.channel, c.asset.url, c.asset.sha256,
                           Target(CanonicalPlatform(c.asset.platform), CanonicalArch(c.asset.arch))))
  }

  predicate SchemaAccepted(m: Manifest) { m.schema.None? || m.schema.value == "" || m.schema.value == SCHEMA }

  /** Release `k` matches and no other matching release is newer, nor as new and listed earlier. */
  ghost predicate IsNewest(parse: Parser, m: Manifest, requested: string, target: Target, k: nat) {
    && k < |m.releases| && Matches(m, requested, target, k)
    && forall j :: 0 <= j < |m.releases| && Matches(m, requested, target, j) ==>
         var c := CompareManifestVersions(parse, m.releases[j].version, m.releases[k].version);
         c <= 0 && (j < k ==> c < 0)
  }

  /** The matching releases' versions compare consistently. */
  ghost predicate Comparable(parse: Parser, m: Manifest, requested: string, target: Target) {
    Consistent(NewestFirst(parse), Candidates(m, requested, target, 0))
  }

  /** `at` lists the positions of the matching releases from `from` on, and `cs` their candidates. */
  ghost predicate AreOrigins(m: Manifest, requested: string, target: Target, from: nat, cs: seq<Candidate>,
                             at: seq<nat>) {
    && |at| == |cs|
    && (forall i :: 0 <= i < |at| ==> from <= at[i] < |m.releases| && IsOrigin(m, requested, target, cs[i], at[i]))
    && (forall i, j :: 0 <= i < j < |at| ==> at[i] < at[j])
    && (forall k :: from <= k < |m.releases| && Matches(m, requested, target, k) ==> k in at)
  }

  ghost predicate IsOrigin(m: Manifest, requested: string, target: Target, c: Candidate, k: nat) {
    k < |m.releases| && CandidateOf(m, requested, target, m.releases[k]) == Some(c) && c.release == m.releases[k]
  }

  /** The positions of the candidates in the manifest. */
  lemma {:induction false} CandidateOrigins(m: Manifest, requested: string, target: Target, from: nat)
    returns (at: seq<nat>)
    requires from <= |m.releases|
    ensures AreOrigins(m, requested, target, from, Candidates(m, requested, target, from), at)
    decreases |m.releases| - from
  {
    hide CandidateOf;
    if from == |m.releases| {
      at := [];
    } else {
      var rest := CandidateOrigins(m, requested, target, from + 1);
      CandidateKeepsRelease(m, requested, target, m.releases[from]);
      at := (if Matches(m, requested, target, from) then [from] else []) + rest;
    }
  }

  lemma CandidateKeepsRelease(m: Manifest, requested: string, target: Target, release: Release)
    ensures CandidateOf(m, requested, target, release).Some? ==>
              CandidateOf(m, requested, target, release).value.release == release
  {}

  lemma NewestFirstIs(parse: Parser, a: Candidate, b: Candidate)
    ensures NewestFirst(parse)(a, b) == CompareManifestVersions(parse, b.release.version, a.release.version)
  {}

  /** No candidates exactly when no release matches. */
  lemma NoCandidates(m: Manifest, requested: string, target: Target)
    ensures Candidates(m, requested, target, 0) == [] <==>
            forall k :: 0 <= k < |m.releases| ==> !Matches(m, requested, target, k)
  {
    var at := CandidateOrigins(m, requested, target, 0);
    hide Candidates, CandidateOf;
    if at != [] {
      assert Matches(m, requested, target, at[0]);
    }
  }

  /**
   What the standard library promises of `sort_by`: a consistent comparison sorts
   stably; with any other it may panic (None) or leave the elements in some order.
   */
  ghost predicate SortsLikeLibrary(sort: seq<Candidate> -> Option<seq<Candidate>>, parse: Parser) {
    forall cs: seq<Candidate> ::
      && (Consistent(NewestFirst(parse), cs) ==> sort(cs) == Some(StableSort(NewestFirst(parse), cs)))
      && (sort(cs).Some? ==> |sort(cs).value| == |cs| && forall c :: c in sort(cs).value ==> c in cs)
  }

  /** The release sorted to the front. */
  lemma Chosen(sort: seq<Candidate> -> Option<seq<Candidate>>, parse: Parser, m: Manifest, requested: string,
               target: Target)
    returns (k: nat)
    requires SortsLikeLibrary(sort, parse)
    requires Candidates(m, requested, target, 0) != [] && sort(Candidates(m, requested, target, 0)).Some?
    ensures var sorted := sort(Candidates(m, requested, target, 0)).value;
            && k < |m.releases| && Matches(m, requested, target, k)
            && sorted != [] && sorted[0] == CandidateOf(m, requested, target, m.releases[k]).value
            && (Comparable(parse, m, requested, target) ==> IsNewest(parse, m, requested, target, k))
  {
    var cs := Candidates(m, requested, target, 0);
    var at := CandidateOrigins(m, requested, target, 0);
    hide CandidateOf, StableSort, Candidates, NewestFirst, Consistent, IsNewest;
    var sorted := sort(cs).value;
    assert sorted[0] in cs;
    var i: nat :| i < |cs| && sorted[0] == cs[i];
    if Comparable(parse, m, requested, target) {
      i := SortedHead(NewestFirst(parse), cs);
      HeadIsNewest(parse, m, requested, target, cs, at, i);
    }
    k := at[i];
    assert IsOrigin(m, requested, target, cs[i], at[i]);
  }

  /** Candidate `i` is at least as new as each other and newer than those before it. */
  ghost predicate Leads(parse: Parser, cs: seq<Candidate>, i: nat)
    requires i < |cs|
  {
    forall j :: 0 <= j < |cs| ==>
      NewestFirst(parse)(cs[i], cs[j]) <= 0 && (j < i ==> NewestFirst(parse)(cs[i], cs[j]) < 0)
  }

  lemma HeadIsNewest(parse: Parser, m: Manifest, requested: string, target: Target, cs: seq<Candidate>, at: seq<nat>,
                     i: nat)
    requires AreOrigins(m, requested, target, 0, cs, at) && i < |cs| && Leads(parse, cs, i)
    ensures IsNewest(parse, m, requested, target, at[i])
  {
    hide AreOrigins, Leads, CompareManifestVersions, CandidateOf;
    OriginAt(m, requested, target, cs, at, i);
    forall l | 0 <= l < |m.releases| && Matches(m, requested, target, l)
      ensures var c := CompareManifestVersions(parse, m.releases[l].version, m.releases[at[i]].version);
              c <= 0 && (l < at[i] ==> c < 0)
    {
      HeadBeats(parse, m, requested, target, cs, at, i, l);
    }
  }

  lemma OriginAt(m: Manifest, requested: string, target: Target, cs: seq<Candidate>, at: seq<nat>, i: nat)
    requires AreOrigins(m, requested, target, 0, cs, at) && i < |cs|
    ensures |at| == |cs| && at[i] < |m.releases| && Matches(m, requested, target, at[i])
        && cs[i].release == m.releases[at[i]]
  {
    hide CandidateOf;
    assert IsOrigin(m, requested, target, cs[i], at[i]);
  }

  lemma HeadBeats(parse: Parser, m: Manifest, requested: string, target: Target, cs: seq<Candidate>, at: seq<nat>,
                  i: nat, l: nat)
    requires AreOrigins(m, requested, target, 0, cs, at) && i < |cs| && Leads(parse, cs, i)
    requires l < |m.releases| && Matches(m, requested, target, l)
    ensures |at| == |cs| && at[i] < |m.releases|
    ensures var c := CompareManifestVersions(parse, m.releases[l].version, m.releases[at[i]].version);
            c <= 0 && (l < at[i] ==> c < 0)
  {
    hide CompareManifestVersions, NewestFirst, CandidateOf;
    OriginAt(m, requested, target, cs, at, i);
    assert l in at;
    var j: nat :| j < |at| && at[j] == l;
    OriginAt(m, requested, target, cs, at, j);
    NewestFirstIs(parse, cs[i], cs[j]);
    assert l < at[i] ==> j < i;
  }

  /** The selection; sorting with an inconsistent comparison may panic or leave any order. */
  method SelectManifestRelease(sort: seq<Candidate> -> Option<seq<Candidate>>, parse: Parser, m: Manifest,
                               requested: string, target: Target)
    returns (r: Result<ResolvedUpdate, SelectError>)
    requires SortsLikeLibrary(sort, parse)
    ensures r == Err(UnsupportedSchema) <==> !SchemaAccepted(m)
    ensures r == Err(NoMatchingRelease) <==>
            SchemaAccepted(m) && forall k :: 0 <= k < |m.releases| ==> !Matches(m, requested, target, k)
    ensures r == Err(SortPanicked) ==> !Comparable(parse, m, requested, target)
    ensures r.Ok? || r == Err(WrongBinaryName) ==>
              exists k :: && 0 <= k < |m.releases| && Matches(m, requested, target, k)
                          && r == Resolve(CandidateOf(m, requested, target, m.releases[k]).value)
                          && (Comparable(parse, m, requested, target) ==> IsNewest(parse, m, requested, target, k))
  {
    hide CandidateOf, StableSort, Candidates, NewestFirst, Consistent, IsNewest;
    if m.schema.Some? {
      if m.schema.value != "" && m.schema.value != SCHEMA {
        return Err(UnsupportedSchema);
      }
    }
    var candidates := Candidates(m, requested, target, 0);
    NoCandidates(m, requested, target);
    NothingIsConsistent(parse);
    var sorted := sort(candidates);
    if sorted.None? {
      return Err(SortPanicked);
    }
    ghost var all := candidates;
    candidates := sorted.value;
    if candidates == [] {
      assert |all| == 0;
      return Err(NoMatchingRelease);
    }
    assert |all| != 0;
    ghost var k := Chosen(sort, parse, m, requested, target);
    r := Resolve(candidates[0]);
  }

  lemma NothingIsConsistent(parse: Parser)
    ensures Consistent(NewestFirst(parse), [])
  {}

  /** Only one release can be the newest, so a consistent comparison determines the choice. */
  lemma NewestIsUnique(parse: Parser, m: Manifest, requested: string, target: Target, k: nat, l: nat)
    requires IsNewest(parse, m, requested, target, k) && IsNewest(parse, m, requested, target, l)
    ensures k == l
  {
    VersionTotalOrder();
    StringTotalOrder();
    hide CompareVersion, CompareString, CandidateOf;
  }

  // ---- When versions compare consistently ----

  /** A version that does not parse lies, as text, between two that do only where those are ordered the same way. */
  ghost predicate Interleaves(parse: Parser, a: string, u: string, b: string) {
    parse(a).Some? && parse(b).Some? && parse(u).None? && CompareString(a, u) < 0 && CompareString(u, b) < 0 ==>
      CompareVersion(parse(a).value, parse(b).value) < 0
  }

  ghost predicate AllInterleave(parse: Parser, cs: seq<Candidate>) {
    forall a, u, b :: a in cs && u in cs && b in cs ==>
        Interleaves(parse, a.release.version, u.release.version, b.release.version)
  }

  /** Both comparisons of versions are total orders, so swapping the operands of the mixed one flips its sign. */
  lemma CompareFlips(parse: Parser, a: string, b: string)
    ensures CompareManifestVersions(parse, a, b) < 0 <==> CompareManifestVersions(parse, b, a) > 0
  {
    VersionTotalOrder();
    StringTotalOrder();
    hide CompareVersion, CompareString;
  }

  lemma InterleavingChains(parse: Parser, p: string, q: string, r: string)
    requires CompareManifestVersions(parse, p, q) <= 0 && CompareManifestVersions(parse, q, r) <= 0
    requires Interleaves(parse, p, q, r) && Interleaves(parse, r, p, q) && Interleaves(parse, q, r, p)
    ensures CompareManifestVersions(parse, p, r) <= 0
  {
    VersionTotalOrder();
    StringTotalOrder();
    hide CompareVersion, CompareString;
  }

  lemma ChainsInterleave(parse: Parser, a: string, u: string, b: string)
    requires CompareManifestVersions(parse, a, u) <= 0 && CompareManifestVersions(parse, u, b) <= 0 ==>
               CompareManifestVersions(parse, a, b) <= 0
    requires CompareManifestVersions(parse, b, a) <= 0 && CompareManifestVersions(parse, a, u) <= 0 ==>
               CompareManifestVersions(parse, b, u) <= 0
    ensures Interleaves(parse, a, u, b)
  {
    VersionTotalOrder();
    StringTotalOrder();
    hide CompareVersion, CompareString;
  }

  lemma ConsistentInterleaves(parse: Parser, cs: seq<Candidate>, a: Candidate, u: Candidate, b: Candidate)
    requires Consistent(NewestFirst(parse), cs) && a in cs && u in cs && b in cs
    ensures Interleaves(parse, a.release.version, u.release.version, b.release.version)
  {
    hide CompareManifestVersions, Interleaves;
    var cmp := NewestFirst(parse);
    assert cmp(b, u) <= 0 && cmp(u, a) <= 0 ==> cmp(b, a) <= 0;
    assert cmp(u, a) <= 0 && cmp(a, b) <= 0 ==> cmp(u, b) <= 0;
    ChainsInterleave(parse, a.release.version, u.release.version, b.release.version);
  }

  lemma InterleavingSorts(parse: Parser, cs: seq<Candidate>, a: Candidate, b: Candidate, c: Candidate)
    requires AllInterleave(parse, cs) && a in cs && b in cs && c in cs
    requires NewestFirst(parse)(a, b) <= 0 && NewestFirst(parse)(b, c) <= 0
    ensures NewestFirst(parse)(a, c) <= 0
  {
    hide CompareManifestVersions, Interleaves;
    InterleavingChains(parse, c.release.version, b.release.version, a.release.version);
  }

  lemma ConsistentExactly(parse: Parser, cs: seq<Candidate>)
    ensures Consistent(NewestFirst(parse), cs) <==> AllInterleave(parse, cs)
  {
    hide CompareManifestVersions, Interleaves;
    if Consistent(NewestFirst(parse), cs) {
      forall a, u, b | a in cs && u in cs && b in cs
        ensures Interleaves(parse, a.release.version, u.release.version, b.release.version)
      {
        hide Consistent;
        ConsistentInterleaves(parse, cs, a, u, b);
      }
    }
    if AllInterleave(parse, cs) {
      hide AllInterleave;
      forall a, b | a in cs && b in cs
        ensures NewestFirst(parse)(a, b) < 0 <==> NewestFirst(parse)(b, a) > 0
      {
        CompareFlips(parse, b.release.version, a.release.version);
      }
      forall a, b, c | && a in cs && b in cs && c in cs
                       && NewestFirst(parse)(a, b) <= 0 && NewestFirst(parse)(b, c) <= 0
        ensures NewestFirst(parse)(a, c) <= 0
      {
        InterleavingSorts(parse, cs, a, b, c);
      }
      hide NewestFirst;
    }
  }

  /** The matching releases interleave. */
  ghost predicate MatchesInterleave(parse: Parser, m: Manifest, requested: string, target: Target) {
    forall i, k, j :: (&& 0 <= i < |m.releases| && 0 <= k < |m.releases| && 0 <= j < |m.releases|
                       && Matches(m, requested, target, i) && Matches(m, requested, target, k)
                       && Matches(m, requested, target, j)) ==>
      Interleaves(parse, m.releases[i].version, m.releases[k].version, m.releases[j].version)
  }

  lemma CandidateAt(m: Manifest, requested: string, target: Target, cs: seq<Candidate>, at: seq<nat>, k: nat)
    returns (c: Candidate)
    requires AreOrigins(m, requested, target, 0, cs, at) && k < |m.releases| && Matches(m, requested, target, k)
    ensures c in cs && c.release == m.releases[k]
  {
    hide CandidateOf;
    assert k in at;
    var i: nat :| i < |at| && at[i] == k;
    OriginAt(m, requested, target, cs, at, i);
    c := cs[i];
  }

  lemma InterleavesAt(parse: Parser, m: Manifest, requested: string, target: Target, cs: seq<Candidate>, at: seq<nat>,
                      i: nat, k: nat, j: nat)
    requires AreOrigins(m, requested, target, 0, cs, at) && AllInterleave(parse, cs)
    requires i < |m.releases| && k < |m.releases| && j < |m.releases|
    requires Matches(m, requested, target, i) && Matches(m, requested, target, k) && Matches(m, requested, target, j)
    ensures Interleaves(parse, m.releases[i].version, m.releases[k].version, m.releases[j].version)
  {
    hide AreOrigins, Matches, Interleaves;
    var a := CandidateAt(m, requested, target, cs, at, i);
    var u := CandidateAt(m, requested, target, cs, at, k);
    var b := CandidateAt(m, requested, target, cs, at, j);
  }

  lemma OriginOf(m: Manifest, requested: string, target: Target, cs: seq<Candidate>, at: seq<nat>, c: Candidate)
    returns (k: nat)
    requires AreOrigins(m, requested, target, 0, cs, at) && c in cs
    ensures k < |m.releases| && Matches(m, requested, target, k) && m.releases[k] == c.release
  {
    hide AreOrigins, Matches;
    var x: nat :| x < |cs| && cs[x] == c;
    OriginAt(m, requested, target, cs, at, x);
    k := at[x];
  }

  lemma InterleavesOf(parse: Parser, m: Manifest, requested: string, target: Target, cs: seq<Candidate>, at: seq<nat>,
                      a: Candidate, u: Candidate, b: Candidate)
    requires AreOrigins(m, requested, target, 0, cs, at) && MatchesInterleave(parse, m, requested, target)
    requires a in cs && u in cs && b in cs
    ensures Interleaves(parse, a.release.version, u.release.version, b.release.version)
  {
    hide AreOrigins, Matches, Interleaves;
    var i := OriginOf(m, requested, target, cs, at, a);
    var k := OriginOf(m, requested, target, cs, at, u);
    var j := OriginOf(m, requested, target, cs, at, b);
  }

  /**
   The matching versions compare consistently if and only if no version that does
   not parse lies, as text, between two that do and are ordered the other way.
   */
  lemma ComparableExactly(parse: Parser, m: Manifest, requested: string, target: Target)
    ensures Comparable(parse, m, requested, target) <==> MatchesInterleave(parse, m, requested, target)
  {
    var at := CandidateOrigins(m, requested, target, 0);
    var cs := Candidates(m, requested, target, 0);
    ConsistentExactly(parse, cs);
    hide Candidates, AreOrigins, Matches, NewestFirst, Consistent, Interleaves;
    if AllInterleave(parse, cs) {
      hide AllInterleave;
      forall i, k, j | && 0 <= i < |m.releases| && 0 <= k < |m.releases| && 0 <= j < |m.releases|
                       && Matches(m, requested, target, i) && Matches(m, requested, target, k)
                       && Matches(m, requested, target, j)
        ensures Interleaves(parse, m.releases[i].version, m.releases[k].version, m.releases[j].version)
      {
        InterleavesAt(parse, m, requested, target, cs, at, i, k, j);
      }
    } else if MatchesInterleave(parse, m, requested, target) {
      hide MatchesInterleave;
      forall a, u, b | a in cs && u in cs && b in cs
        ensures Interleaves(parse, a.release.version, u.release.version, b.release.version)
      {
        InterleavesOf(parse, m, requested, target, cs, at, a, u, b);
      }
    }
  }

  /** In particular, when every matching version parses, or none does. */
  lemma UniformVersionsCompare(parse: Parser, m: Manifest, requested: string, target: Target)
    requires forall j, k :: (&& 0 <= j < |m.releases| && 0 <= k < |m.releases|
                             && Matches(m, requested, target, j) && Matches(m, requested, target, k)) ==>
               (parse(m.releases[j].version).Some? <==> parse(m.releases[k].version).Some?)
    ensures Comparable(parse, m, requested, target)
  {
    hide Matches, CompareString, CompareVersion;
    ComparableExactly(parse, m, requested, target);
  }

  /**
   Versions that partly parse can compare in a circle: two that parse are ordered as
   versions, but each against one that does not as text.
   */
  lemma MixedVersionsCanCircle(parse: Parser)
    requires parse("9.0.0") == Some(Version(9, 0, 0, [], [])) && parse("10.0.0") == Some(Version(10, 0, 0, [], []))
    requires parse("5x").None?
    ensures CompareManifestVersions(parse, "9.0.0", "10.0.0") < 0
    ensures CompareManifestVersions(parse, "10.0.0", "5x") < 0
    ensures CompareManifestVersions(parse, "5x", "9.0.0") < 0
  {
    assert CompareChar("10.0.0"[0], "5x"[0]) < 0 && CompareChar("5x"[0], "9.0.0"[0]) < 0;
  }

  /** A manifest with such versions has matching releases and no newest one among them. */
  lemma ManifestWithoutNewest(parse: Parser, asset: Asset, target: Target) returns (m: Manifest)
    requires parse("9.0.0") == Some(Version(9, 0, 0, [], [])) && parse("10.0.0") == Some(Version(10, 0, 0, [], []))
    requires parse("5x").None? && AssetMatchesTarget(asset, target)
    ensures SchemaAccepted(m) && |m.releases| == 3 && forall k :: 0 <= k < 3 ==> Matches(m, "", target, k)
    ensures forall k: nat :: !IsNewest(parse, m, "", target, k)
  {
    m := Manifest(None, None,
        [Release("9.0.0", None, [asset]), Release("10.0.0", None, [asset]), Release("5x", None, [asset])]);
    assert forall k :: 0 <= k < 3 ==> m.releases[k].assets == [asset] && m.releases[k].channel == None;
    MixedVersionsCanCircle(parse);
    forall k | 0 <= k < 3
      ensures Matches(m, "", target, k)
    {
      hide AssetMatchesTarget, AsciiLower;
      assert FindAsset(m.releases[k].assets, target) == Some(asset);
    }
    hide Matches, CompareManifestVersions, IsNewest;
    forall k: nat
      ensures !IsNewest(parse, m, "", target, k)
    {
      if k < 3 {
        var next := if k == 2 then 0 else k + 1;
        CompareFlips(parse, m.releases[k].version, m.releases[next].version);
        BeatenIsNotNewest(parse, m, "", target, k, next);
      } else {
        OutOfRangeIsNotNewest(parse, m, "", target, k);
      }
    }
  }

  lemma BeatenIsNotNewest(parse: Parser, m: Manifest, requested: string, target: Target, k: nat, next: nat)
    requires k < |m.releases| && next < |m.releases| && Matches(m, requested, target, next)
    requires CompareManifestVersions(parse, m.releases[next].version, m.releases[k].version) > 0
    ensures !IsNewest(parse, m, requested, target, k)
  {}

  lemma OutOfRangeIsNotNewest(parse: Parser, m: Manifest, requested: string, target: Target, k: nat)
    requires k >= |m.releases|
    ensures !IsNewest(parse, m, requested, target, k)
  {}
}
