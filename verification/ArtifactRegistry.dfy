/** The artifact registry: versions of an artifact with their platform builds, published once and
    found again by version or as the latest release. */
module ArtifactRegistry {
  import opened Base
  import opened WorkerPool
  import opened DispatchSpec
  import opened DispatchGuarantees

  datatype Platform = Platform(os: string, arch: string, hash: string)

  datatype Version = Version(version: string, preRelease: bool, publishedAt: int, platforms: seq<Platform>)

  predicate For(p: Platform, os: string, arch: string) {
    p.os == os && p.arch == arch
  }

  function FindIn(ps: seq<Platform>, os: string, arch: string): Option<Platform> {
    if ps == [] then None
    else if For(ps[0], os, arch) then Some(ps[0])
    else FindIn(ps[1..], os, arch)
  }

  /** findPlatformLocked: the first build for the platform among the entries of a version. */
  function Find(vs: seq<Version>, version: string, os: string, arch: string): Option<Platform> {
    if vs == [] then None
    else if vs[0].version == version && FindIn(vs[0].platforms, os, arch).Some? then FindIn(vs[0].platforms, os, arch)
    else Find(vs[1..], version, os, arch)
  }

  /** Resolve: the first release that has a build for the platform. */
  function Latest(vs: seq<Version>, os: string, arch: string): Option<Platform> {
    if vs == [] then None
    else if !vs[0].preRelease && FindIn(vs[0].platforms, os, arch).Some? then FindIn(vs[0].platforms, os, arch)
    else Latest(vs[1..], os, arch)
  }

  /** What a caller asks for: the version, or any release. */
  predicate Chosen(v: Version, version: string) {
    if version != "" then v.version == version else !v.preRelease
  }

  /** ListPlatforms: the builds of the first entry of the version, or of the first release. */
  function Listing(vs: seq<Version>, version: string): seq<Platform> {
    if vs == [] then []
    else if Chosen(vs[0], version) then vs[0].platforms
    else Listing(vs[1..], version)
  }

  // ---- the invariant of the index ----

  /** No platform twice in one entry. */
  predicate Separate(ps: seq<Platform>) {
    forall i, j :: 0 <= i < j < |ps| ==> !For(ps[i], ps[j].os, ps[j].arch)
  }

  predicate Has(v: Version, os: string, arch: string) {
    exists i :: 0 <= i < |v.platforms| && For(v.platforms[i], os, arch)
  }

  /** Two entries of the same version share no platform. */
  predicate Apart(v: Version, w: Version) {
    v.version == w.version ==> forall i :: 0 <= i < |v.platforms| ==> !Has(w, v.platforms[i].os, v.platforms[i].arch)
  }

  predicate Unique(vs: seq<Version>) {
    && (forall i :: 0 <= i < |vs| ==> Separate(vs[i].platforms))
    && (forall i, j :: 0 <= i < |vs| && 0 <= j < |vs| && i != j ==> Apart(vs[i], vs[j]))
  }

  predicate NewestFirst(vs: seq<Version>) {
    forall i, j :: 0 <= i < j < |vs| ==> vs[i].publishedAt >= vs[j].publishedAt
  }

  // ---- what the scans find ----

  lemma {:induction false} FindInIff(ps: seq<Platform>, os: string, arch: string, i: nat)
    requires Separate(ps) && i < |ps| && For(ps[i], os, arch)
    ensures FindIn(ps, os, arch) == Some(ps[i])
    decreases |ps|
  {
    if i > 0 {
      assert !For(ps[0], ps[i].os, ps[i].arch);
      assert forall j :: 0 <= j < |ps[1..]| ==> ps[1..][j] == ps[j + 1];
      FindInIff(ps[1..], os, arch, i - 1);
    }
  }

  lemma {:induction false} FindInSound(ps: seq<Platform>, os: string, arch: string) returns (i: nat)
    requires FindIn(ps, os, arch).Some?
    ensures i < |ps| && ps[i] == FindIn(ps, os, arch).value && For(ps[i], os, arch)
    decreases |ps|
  {
    if For(ps[0], os, arch) {
      i := 0;
    } else {
      var j := FindInSound(ps[1..], os, arch);
      i := j + 1;
    }
  }

  lemma TailUnique(vs: seq<Version>)
    requires Unique(vs) && vs != []
    ensures Unique(vs[1..])
  {
    assert forall i :: 0 <= i < |vs[1..]| ==> vs[1..][i] == vs[i + 1];
  }

  /** With unique platforms, whatever the order of the entries, a lookup by version finds exactly
      the build that is there. */
  lemma {:induction false} FindIff(vs: seq<Version>, version: string, os: string, arch: string, i: nat, j: nat)
    requires Unique(vs) && i < |vs| && vs[i].version == version
    requires j < |vs[i].platforms| && For(vs[i].platforms[j], os, arch)
    ensures Find(vs, version, os, arch) == Some(vs[i].platforms[j])
    decreases |vs|
  {
    if i == 0 {
      FindInIff(vs[0].platforms, os, arch, j);
    } else {
      if vs[0].version == version && FindIn(vs[0].platforms, os, arch).Some? {
        var k := FindInSound(vs[0].platforms, os, arch);
        assert Apart(vs[i], vs[0]) && Has(vs[0], os, arch);
        assert false;
      }
      TailUnique(vs);
      FindIff(vs[1..], version, os, arch, i - 1, j);
    }
  }

  lemma {:induction false} FindSound(vs: seq<Version>, version: string, os: string, arch: string)
    returns (i: nat, j: nat)
    requires Find(vs, version, os, arch).Some?
    ensures i < |vs| && vs[i].version == version && j < |vs[i].platforms|
    ensures For(vs[i].platforms[j], os, arch) && Find(vs, version, os, arch) == Some(vs[i].platforms[j])
    decreases |vs|
  {
    if vs[0].version == version && FindIn(vs[0].platforms, os, arch).Some? {
      i := 0;
      j := FindInSound(vs[0].platforms, os, arch);
    } else {
      var k;
      k, j := FindSound(vs[1..], version, os, arch);
      i := k + 1;
    }
  }

  // ---- publishing ----

  datatype Error = InvalidKey | AlreadyExists

  /** splitPlatformKey: at the first underscore, both parts non-empty. */
  function SplitKey(key: string): Option<(string, string)> {
    var i := IndexOf(key, '_');
    if i < 1 || i >= |key| - 1 then None else Some((key[..i], key[i + 1..]))
  }

  /** A key is two non-empty parts joined by an underscore, the first one without any. */
  lemma SplitKeyIff(key: string, os: string, arch: string)
    ensures SplitKey(key) == Some((os, arch)) <==>
            key == os + "_" + arch && os != "" && arch != "" && '_' !in os
  {
    var i := IndexOf(key, '_');
    if key == os + "_" + arch && '_' !in os {
      assert key[..|os|] == os && key[|os|] == '_' && key[|os| + 1..] == arch;
    }
    if i < |key| {
      assert key == key[..i] + [key[i]] + key[i + 1..];
    }
  }

  /** Different keys name different platforms. */
  lemma SplitKeyInjective(a: string, b: string)
    requires SplitKey(a).Some? && SplitKey(a) == SplitKey(b)
    ensures a == b
  {
    var i, j := IndexOf(a, '_'), IndexOf(b, '_');
    assert a == a[..i] + [a[i]] + a[i + 1..];
    assert b == b[..j] + [b[j]] + b[j + 1..];
  }

  datatype Binary = Binary(key: string, hash: string)

  function Build(b: Binary): Platform
    requires SplitKey(b.key).Some?
  {
    Platform(SplitKey(b.key).value.0, SplitKey(b.key).value.1, b.hash)
  }

  /** The conflict scan: the first key that is malformed or already published. */
  function Conflict(vs: seq<Version>, version: string, binaries: seq<Binary>): Option<Error> {
    if binaries == [] then None
    else
      match SplitKey(binaries[0].key)
      case None => Some(InvalidKey)
      case Some(p) =>
        if Find(vs, version, p.0, p.1).Some? then Some(AlreadyExists) else Conflict(vs, version, binaries[1..])
  }

  predicate DistinctKeys(binaries: seq<Binary>) {
    forall i, j :: 0 <= i < j < |binaries| ==> binaries[i].key != binaries[j].key
  }

  function Builds(binaries: seq<Binary>): (ps: seq<Platform>)
    requires forall i :: 0 <= i < |binaries| ==> SplitKey(binaries[i].key).Some?
    ensures |ps| == |binaries| && forall i :: 0 <= i < |ps| ==> ps[i] == Build(binaries[i])
  {
    seq(|binaries|, i requires 0 <= i < |binaries| => Build(binaries[i]))
  }

  lemma {:induction false} NoConflict(vs: seq<Version>, version: string, binaries: seq<Binary>, i: nat)
    requires Conflict(vs, version, binaries).None? && i < |binaries|
    ensures SplitKey(binaries[i].key).Some? && Find(vs, version, Build(binaries[i]).os, Build(binaries[i]).arch).None?
    decreases |binaries|
  {
    if i > 0 {
      NoConflict(vs, version, binaries[1..], i - 1);
    }
  }

  /** out is src in another order: p says where each entry comes from, q where it went. */
  predicate Reorders(src: seq<Version>, out: seq<Version>, p: seq<nat>, q: seq<nat>) {
    && |out| == |src| && |p| == |src| && |q| == |src|
    && (forall i :: 0 <= i < |src| ==> p[i] < |src| && out[i] == src[p[i]])
    && (forall i :: 0 <= i < |src| ==> q[i] < |src| && p[q[i]] == i)
    && (forall i :: 0 <= i < |src| ==> q[p[i]] == i)
  }

  lemma ReorderKeepsUnique(src: seq<Version>, out: seq<Version>, p: seq<nat>, q: seq<nat>)
    requires Unique(src) && Reorders(src, out, p, q)
    ensures Unique(out)
  {
    forall i, j | 0 <= i < |out| && 0 <= j < |out| && i != j ensures Apart(out[i], out[j]) {
      assert p[i] != p[j] by {
        assert q[p[i]] == i && q[p[j]] == j;
      }
      assert Apart(src[p[i]], src[p[j]]);
    }
    hide Apart, Separate;
  }

  /** The order of the entries does not matter to a lookup by version. */
  lemma ReorderKeepsFind(src: seq<Version>, out: seq<Version>, p: seq<nat>, q: seq<nat>,
                         version: string, os: string, arch: string)
    requires Unique(src) && Reorders(src, out, p, q)
    ensures Find(out, version, os, arch) == Find(src, version, os, arch)
  {
    ReorderKeepsUnique(src, out, p, q);
    if Find(src, version, os, arch).Some? {
      var i, j := FindSound(src, version, os, arch);
      assert out[q[i]] == src[i];
      FindIff(out, version, os, arch, q[i], j);
    } else if Find(out, version, os, arch).Some? {
      var i, j := FindSound(out, version, os, arch);
      FindIff(src, version, os, arch, p[i], j);
    }
  }

  lemma {:induction false} FindAppend(vs: seq<Version>, v: Version, version: string, os: string, arch: string)
    ensures Find(vs + [v], version, os, arch) ==
            if Find(vs, version, os, arch).Some? then Find(vs, version, os, arch)
            else if v.version == version then FindIn(v.platforms, os, arch) else None
    decreases |vs|
  {
    if vs == [] {
      assert vs + [v] == [v] && [v][1..] == [];
    } else {
      assert (vs + [v])[1..] == vs[1..] + [v];
      FindAppend(vs[1..], v, version, os, arch);
    }
  }

  lemma BuildsSeparate(binaries: seq<Binary>)
    requires DistinctKeys(binaries) && forall i :: 0 <= i < |binaries| ==> SplitKey(binaries[i].key).Some?
    ensures Separate(Builds(binaries))
  {
    var ps := Builds(binaries);
    forall i, j | 0 <= i < j < |ps| ensures !For(ps[i], ps[j].os, ps[j].arch) {
      if For(ps[i], ps[j].os, ps[j].arch) {
        SplitKeyInjective(binaries[i].key, binaries[j].key);
      }
    }
  }

  /** A version that passed the conflict scan can join the index. */
  lemma AppendKeepsUnique(vs: seq<Version>, v: Version, binaries: seq<Binary>)
    requires Unique(vs) && DistinctKeys(binaries) && Conflict(vs, v.version, binaries).None?
    requires forall i :: 0 <= i < |binaries| ==> SplitKey(binaries[i].key).Some?
    requires v.platforms == Builds(binaries)
    ensures Unique(vs + [v])
  {
    BuildsSeparate(binaries);
    forall i | 0 <= i < |vs| ensures Apart(vs[i], v) && Apart(v, vs[i]) {
      if vs[i].version == v.version {
        forall j, k | 0 <= j < |vs[i].platforms| && 0 <= k < |v.platforms|
          ensures !For(v.platforms[k], vs[i].platforms[j].os, vs[i].platforms[j].arch)
        {
          NoConflict(vs, v.version, binaries, k);
          if For(v.platforms[k], vs[i].platforms[j].os, vs[i].platforms[j].arch) {
            FindIff(vs, v.version, v.platforms[k].os, v.platforms[k].arch, i, j);
          }
        }
      }
    }
    hide Apart, Separate;
  }

  // ---- the index over runs of publishes ----

  /** What each meta.json holds, by artifact and version. */
  type Metas = map<(string, string), Version>

  /** The in-memory index and the metadata files. */
  datatype Index = Index(versions: map<string, seq<Version>>, metas: Metas)

  function EntriesOf(idx: Index, artifact: string): seq<Version> {
    if artifact in idx.versions then idx.versions[artifact] else []
  }

  /** What the library sort may do: any reordering that ends newest first. */
  ghost predicate Sorts(sort: seq<Version> -> seq<Version>) {
    forall vs :: NewestFirst(sort(vs)) && exists p, q :: Reorders(vs, sort(vs), p, q)
  }

  datatype Request = Request(artifact: string, version: string, preRelease: bool, at: int, binaries: seq<Binary>)

  predicate Accepts(idx: Index, r: Request) {
    Conflict(EntriesOf(idx, r.artifact), r.version, r.binaries).None?
  }

  lemma {:induction false} ConflictIff(vs: seq<Version>, version: string, binaries: seq<Binary>)
    ensures Conflict(vs, version, binaries).None? <==>
            forall i :: 0 <= i < |binaries| ==>
              SplitKey(binaries[i].key).Some? && Find(vs, version, Build(binaries[i]).os, Build(binaries[i]).arch).None?
    decreases |binaries|
  {
    if binaries != [] {
      ConflictIff(vs, version, binaries[1..]);
      assert binaries == [binaries[0]] + binaries[1..];
    }
  }

  predicate Publishable(vs: seq<Version>, version: string, b: Binary) {
    SplitKey(b.key).Some? && Find(vs, version, Build(b).os, Build(b).arch).None?
  }

  /** The error is that of the first binary that cannot be published: a malformed key, or a build that
      exists. */
  lemma {:induction false} ConflictIs(vs: seq<Version>, version: string, binaries: seq<Binary>, i: nat)
    requires i < |binaries| && !Publishable(vs, version, binaries[i])
    requires forall j :: 0 <= j < i ==> Publishable(vs, version, binaries[j])
    ensures Conflict(vs, version, binaries) ==
            Some(if SplitKey(binaries[i].key).None? then InvalidKey else AlreadyExists)
    decreases i
  {
    if i > 0 {
      assert Publishable(vs, version, binaries[0]);
      assert forall j :: 0 <= j < i - 1 ==> binaries[1..][j] == binaries[j + 1];
      ConflictIs(vs, version, binaries[1..], i - 1);
    }
  }

  function NewEntry(idx: Index, r: Request): Version
    requires Accepts(idx, r)
  {
    ConflictIff(EntriesOf(idx, r.artifact), r.version, r.binaries);
    Version(r.version, r.preRelease, r.at, Builds(r.binaries))
  }

  /** Publish. A refused request changes nothing. */
  function PublishSpec(idx: Index, sort: seq<Version> -> seq<Version>, r: Request): Index {
    if !Accepts(idx, r) then idx
    else
      var v := NewEntry(idx, r);
      Index(idx.versions[r.artifact := sort(EntriesOf(idx, r.artifact) + [v])],
            idx.metas[(r.artifact, r.version) := v])
  }

  predicate Consistent(idx: Index) {
    forall a :: a in idx.versions ==> Unique(idx.versions[a]) && NewestFirst(idx.versions[a])
  }

  function Resolved(idx: Index, artifact: string, version: string, os: string, arch: string): Option<Platform> {
    Find(EntriesOf(idx, artifact), version, os, arch)
  }

  /** An accepted publish keeps the index consistent, makes its own builds resolvable, and leaves
      every build that was resolvable before exactly as it was. */
  lemma PublishIsImmutable(idx: Index, sort: seq<Version> -> seq<Version>, r: Request,
                           artifact: string, version: string, os: string, arch: string)
    requires Consistent(idx) && Sorts(sort) && DistinctKeys(r.binaries)
    ensures var idx' := PublishSpec(idx, sort, r);
            && Consistent(idx')
            && (Resolved(idx, artifact, version, os, arch).Some? ==>
                  Resolved(idx', artifact, version, os, arch) == Resolved(idx, artifact, version, os, arch))
            && (Accepts(idx, r) && artifact == r.artifact && version == r.version ==>
                  forall i :: 0 <= i < |r.binaries| && SplitKey(r.binaries[i].key) == Some((os, arch)) ==>
                    Resolved(idx', artifact, version, os, arch) == Some(Build(r.binaries[i])))
  {
    if Accepts(idx, r) {
      var vs := EntriesOf(idx, r.artifact);
      var v := NewEntry(idx, r);
      var out := sort(vs + [v]);
      assert Unique(vs);
      ConflictIff(vs, r.version, r.binaries);
      AppendKeepsUnique(vs, v, r.binaries);
      var p, q :| Reorders(vs + [v], out, p, q);
      ReorderKeepsUnique(vs + [v], out, p, q);
      hide Unique, NewestFirst, Reorders, Conflict, Sorts;
      ReorderKeepsFind(vs + [v], out, p, q, version, os, arch);
      FindAppend(vs, v, version, os, arch);
      forall i | 0 <= i < |r.binaries| && SplitKey(r.binaries[i].key) == Some((os, arch))
        ensures FindIn(v.platforms, os, arch) == Some(Build(r.binaries[i]))
      {
        BuildsSeparate(r.binaries);
        FindInIff(v.platforms, os, arch, i);
      }
      hide Find, FindIn;
    }
  }

  function PublishAll(idx: Index, sort: seq<Version> -> seq<Version>, rs: seq<Request>): Index
    decreases |rs|
  {
    if rs == [] then idx else PublishAll(PublishSpec(idx, sort, rs[0]), sort, rs[1..])
  }

  /** Over every sequence of publishes a resolved build never changes. */
  lemma {:induction false} NeverChanges(idx: Index, sort: seq<Version> -> seq<Version>, rs: seq<Request>,
                                        artifact: string, version: string, os: string, arch: string)
    requires Consistent(idx) && Sorts(sort) && forall i :: 0 <= i < |rs| ==> DistinctKeys(rs[i].binaries)
    ensures Consistent(PublishAll(idx, sort, rs))
    ensures Resolved(idx, artifact, version, os, arch).Some? ==>
            Resolved(PublishAll(idx, sort, rs), artifact, version, os, arch) ==
            Resolved(idx, artifact, version, os, arch)
    decreases |rs|
  {
    hide Consistent, Sorts, Resolved, PublishSpec, DistinctKeys;
    if rs != [] {
      PublishIsImmutable(idx, sort, rs[0], artifact, version, os, arch);
      NeverChanges(PublishSpec(idx, sort, rs[0]), sort, rs[1..], artifact, version, os, arch);
    }
  }

  // ---- what is listed resolves ----

  /** Every listed build is the one its own platform resolves to: by version, or as the latest. */
  lemma {:induction false} ListedResolves(vs: seq<Version>, version: string, j: nat)
    requires Unique(vs) && j < |Listing(vs, version)|
    ensures var p := Listing(vs, version)[j];
            if version != "" then Find(vs, version, p.os, p.arch) == Some(p) else Latest(vs, p.os, p.arch) == Some(p)
    decreases |vs|
  {
    if Chosen(vs[0], version) {
      FindInIff(vs[0].platforms, vs[0].platforms[j].os, vs[0].platforms[j].arch, j);
    } else {
      TailUnique(vs);
      ListedResolves(vs[1..], version, j);
    }
  }

  lemma {:induction false} FindInHas(ps: seq<Platform>, os: string, arch: string, j: nat)
    requires j < |ps| && For(ps[j], os, arch)
    ensures FindIn(ps, os, arch).Some?
    decreases |ps|
  {
    if j > 0 {
      FindInHas(ps[1..], os, arch, j - 1);
    }
  }

  /** If some release has a build, resolving finds one of a release at least as new. */
  lemma {:induction false} LatestIsNewest(vs: seq<Version>, os: string, arch: string, k: nat)
    requires NewestFirst(vs) && k < |vs| && !vs[k].preRelease && Has(vs[k], os, arch)
    ensures Latest(vs, os, arch).Some?
    ensures exists i :: 0 <= i < |vs| && !vs[i].preRelease && vs[i].publishedAt >= vs[k].publishedAt
                        && Latest(vs, os, arch).value in vs[i].platforms && For(Latest(vs, os, arch).value, os, arch)
    decreases |vs|
  {
    if !vs[0].preRelease && FindIn(vs[0].platforms, os, arch).Some? {
      var j := FindInSound(vs[0].platforms, os, arch);
      assert vs[0].publishedAt >= vs[k].publishedAt;
    } else {
      if k == 0 {
        var j :| 0 <= j < |vs[0].platforms| && For(vs[0].platforms[j], os, arch);
        FindInHas(vs[0].platforms, os, arch, j);
        assert false;
      }
      assert forall i :: 0 <= i < |vs[1..]| ==> vs[1..][i] == vs[i + 1];
      LatestIsNewest(vs[1..], os, arch, k - 1);
      var i :| 0 <= i < |vs[1..]| && !vs[1..][i].preRelease && vs[1..][i].publishedAt >= vs[k].publishedAt
               && Latest(vs[1..], os, arch).value in vs[1..][i].platforms
               && For(Latest(vs[1..], os, arch).value, os, arch);
      assert vs[i + 1] == vs[1..][i];
    }
  }

  lemma {:induction false} LatestSound(vs: seq<Version>, os: string, arch: string) returns (k: nat)
    requires Latest(vs, os, arch).Some?
    ensures k < |vs| && !vs[k].preRelease && Has(vs[k], os, arch)
    decreases |vs|
  {
    if !vs[0].preRelease && FindIn(vs[0].platforms, os, arch).Some? {
      k := 0;
      var j := FindInSound(vs[0].platforms, os, arch);
    } else {
      var i := LatestSound(vs[1..], os, arch);
      k := i + 1;
    }
  }

  /** Resolving finds a build exactly if some release has one. */
  lemma LatestIff(vs: seq<Version>, os: string, arch: string)
    requires NewestFirst(vs)
    ensures Latest(vs, os, arch).Some? <==> exists k :: 0 <= k < |vs| && !vs[k].preRelease && Has(vs[k], os, arch)
  {
    if Latest(vs, os, arch).Some? {
      var k := LatestSound(vs, os, arch);
    }
    if k :| 0 <= k < |vs| && !vs[k].preRelease && Has(vs[k], os, arch) {
      LatestIsNewest(vs, os, arch, k);
    }
  }

  // ---- what resolves is not always listed ----

  predicate Resolvable(vs: seq<Version>, version: string, os: string, arch: string) {
    if version != "" then Find(vs, version, os, arch).Some? else Latest(vs, os, arch).Some?
  }

  lemma {:induction false} ResolvableIff(vs: seq<Version>, version: string, os: string, arch: string)
    ensures Resolvable(vs, version, os, arch) <==>
            exists k :: 0 <= k < |vs| && Chosen(vs[k], version) && Has(vs[k], os, arch)
    decreases |vs|
  {
    if vs != [] {
      ResolvableIff(vs[1..], version, os, arch);
      assert FindIn(vs[0].platforms, os, arch).Some? <==> Has(vs[0], os, arch) by {
        if FindIn(vs[0].platforms, os, arch).Some? {
          var i := FindInSound(vs[0].platforms, os, arch);
        } else if i :| 0 <= i < |vs[0].platforms| && For(vs[0].platforms[i], os, arch) {
          FindInHas(vs[0].platforms, os, arch, i);
        }
      }
      assert forall k :: 0 <= k < |vs[1..]| ==> vs[1..][k] == vs[k + 1];
      hide Has, Chosen;
    }
  }

  predicate Offers(ps: seq<Platform>, os: string, arch: string) {
    exists i :: 0 <= i < |ps| && For(ps[i], os, arch)
  }

  /** Every platform that resolves is listed, so that its workers are eligible. */
  ghost predicate AllListed(vs: seq<Version>, version: string) {
    forall os, arch :: Resolvable(vs, version, os, arch) ==> Offers(Listing(vs, version), os, arch)
  }

  predicate FirstChosen(vs: seq<Version>, version: string, f: nat) {
    f < |vs| && Chosen(vs[f], version) && forall i :: 0 <= i < f ==> !Chosen(vs[i], version)
  }

  lemma {:induction false} ListingIs(vs: seq<Version>, version: string, f: nat)
    requires FirstChosen(vs, version, f)
    ensures Listing(vs, version) == vs[f].platforms
    decreases |vs|
  {
    if f > 0 {
      assert !Chosen(vs[0], version);
      assert forall i :: 0 <= i < |vs[1..]| ==> vs[1..][i] == vs[i + 1];
      ListingIs(vs[1..], version, f - 1);
    }
  }

  /** Every platform of v is one of w. */
  predicate Within(v: Version, w: Version) {
    forall i :: 0 <= i < |v.platforms| ==> Has(w, v.platforms[i].os, v.platforms[i].arch)
  }

  lemma {:induction false} FindFirst(vs: seq<Version>, version: string, k: nat) returns (f: nat)
    requires k < |vs| && Chosen(vs[k], version)
    ensures f <= k && FirstChosen(vs, version, f)
    decreases k
  {
    if i :| 0 <= i < k && Chosen(vs[i], version) {
      f := FindFirst(vs, version, i);
    } else {
      f := k;
    }
  }

  lemma SelfWithin(v: Version)
    ensures Within(v, v)
  {
  }

  predicate AllWithin(vs: seq<Version>, version: string, f: nat)
    requires f < |vs|
  {
    forall k :: f <= k < |vs| && Chosen(vs[k], version) ==> Within(vs[k], vs[f])
  }

  lemma FirstListsAllIff(vs: seq<Version>, version: string, f: nat)
    requires FirstChosen(vs, version, f)
    ensures AllListed(vs, version) <==> AllWithin(vs, version, f)
  {
    ListingIs(vs, version, f);
    if AllListed(vs, version) {
      forall k, i | f <= k < |vs| && Chosen(vs[k], version) && 0 <= i < |vs[k].platforms|
        ensures Has(vs[f], vs[k].platforms[i].os, vs[k].platforms[i].arch)
      {
        ResolvableIff(vs, version, vs[k].platforms[i].os, vs[k].platforms[i].arch);
      }
    } else {
      var os, arch :| Resolvable(vs, version, os, arch) && !Offers(Listing(vs, version), os, arch);
      ResolvableIff(vs, version, os, arch);
      var k :| 0 <= k < |vs| && Chosen(vs[k], version) && Has(vs[k], os, arch);
      var i :| 0 <= i < |vs[k].platforms| && For(vs[k].platforms[i], os, arch);
      assert !Has(vs[f], os, arch);
      assert !Within(vs[k], vs[f]);
    }
  }

  /** For any request: every resolvable platform is listed exactly if all entries that are asked for
      stay within the first of them. */
  lemma ListedIff(vs: seq<Version>, version: string)
    ensures AllListed(vs, version) <==> forall f: nat :: FirstChosen(vs, version, f) ==> AllWithin(vs, version, f)
  {
    if f: nat :| FirstChosen(vs, version, f) {
      FirstListsAllIff(vs, version, f);
      forall g: nat | FirstChosen(vs, version, g) ensures g == f {
      }
    } else {
      forall os, arch ensures !Resolvable(vs, version, os, arch) {
        ResolvableIff(vs, version, os, arch);
        if k :| 0 <= k < |vs| && Chosen(vs[k], version) && Has(vs[k], os, arch) {
          var f := FindFirst(vs, version, k);
        }
      }
    }
  }

  lemma ApartWithin(v: Version, w: Version)
    requires v.version == w.version && Apart(v, w)
    ensures Within(v, w) <==> v.platforms == []
  {
    if v.platforms != [] {
      assert !Has(w, v.platforms[0].os, v.platforms[0].arch);
    }
  }

  /** Only the newest entry of the version has builds. */
  predicate OneEntry(vs: seq<Version>, version: string) {
    forall i, k :: 0 <= i < k < |vs| && vs[i].version == vs[k].version == version ==> vs[k].platforms == []
  }

  /** For a version: every resolvable platform is listed exactly if only its newest entry has builds. */
  lemma VersionListedIff(vs: seq<Version>, version: string)
    requires Unique(vs) && version != ""
    ensures AllListed(vs, version) <==> OneEntry(vs, version)
  {
    ListedIff(vs, version);
    hide AllListed, Within, Apart;
    if AllListed(vs, version) {
      forall i, k | 0 <= i < k < |vs| && vs[i].version == vs[k].version == version ensures vs[k].platforms == [] {
        var f := FindFirst(vs, version, i);
        ApartWithin(vs[k], vs[f]);
      }
    } else {
      var f: nat :| FirstChosen(vs, version, f) && !AllWithin(vs, version, f);
      var k :| f <= k < |vs| && Chosen(vs[k], version) && !Within(vs[k], vs[f]);
      assert f != k by {
        SelfWithin(vs[f]);
      }
      ApartWithin(vs[k], vs[f]);
    }
  }

  /** Publishing another platform for a version hides the earlier ones: they still resolve and are
      listed no more. */
  lemma RepublishHides(idx: Index, sort: seq<Version> -> seq<Version>, r: Request, os: string, arch: string)
    requires Consistent(idx) && Sorts(sort) && DistinctKeys(r.binaries) && Accepts(idx, r) && r.version != ""
    requires Resolved(idx, r.artifact, r.version, os, arch).Some?
    requires forall i :: 0 <= i < |EntriesOf(idx, r.artifact)| ==> EntriesOf(idx, r.artifact)[i].publishedAt < r.at
    ensures var out := EntriesOf(PublishSpec(idx, sort, r), r.artifact);
            Resolvable(out, r.version, os, arch) && !Offers(Listing(out, r.version), os, arch)
  {
    var vs, v := EntriesOf(idx, r.artifact), NewEntry(idx, r);
    var src := vs + [v];
    var out := sort(src);
    assert NewestFirst(out);
    var p, q :| Reorders(src, out, p, q);
    var n := |vs|;
    assert src[n] == v && p[q[n]] == n && q[p[0]] == 0;
    assert p[0] == n;
    assert FirstChosen(out, r.version, 0);
    ListingIs(out, r.version, 0);
    forall i | 0 <= i < |v.platforms| ensures !For(v.platforms[i], os, arch) {
      NoConflict(vs, r.version, r.binaries, i);
    }
    PublishIsImmutable(idx, sort, r, r.artifact, r.version, os, arch);
  }

  // ---- restart ----

  /** What loadAll reads for an artifact: one entry per version, as its meta.json says. */
  predicate Loads(metas: Metas, artifact: string, vs: seq<Version>) {
    && (forall i :: 0 <= i < |vs| ==> (artifact, vs[i].version) in metas && vs[i] == metas[(artifact, vs[i].version)])
    && (forall i, j :: 0 <= i < j < |vs| ==> vs[i].version != vs[j].version)
    && (forall k :: k in metas && k.0 == artifact ==> exists i :: 0 <= i < |vs| && vs[i].version == k.1)
  }

  function Reread(metas: Metas, artifact: string, version: string, os: string, arch: string): Option<Platform> {
    if (artifact, version) in metas then FindIn(metas[(artifact, version)].platforms, os, arch) else None
  }

  lemma {:induction false} FindNone(vs: seq<Version>, version: string, os: string, arch: string)
    requires forall i :: 0 <= i < |vs| ==> vs[i].version != version
    ensures Find(vs, version, os, arch).None?
    decreases |vs|
  {
    if vs != [] {
      FindNone(vs[1..], version, os, arch);
    }
  }

  lemma {:induction false} FindOnly(vs: seq<Version>, i: nat, os: string, arch: string)
    requires i < |vs| && forall j, k :: 0 <= j < k < |vs| ==> vs[j].version != vs[k].version
    ensures Find(vs, vs[i].version, os, arch) == FindIn(vs[i].platforms, os, arch)
    decreases |vs|
  {
    if i == 0 {
      FindNone(vs[1..], vs[0].version, os, arch);
    } else {
      assert vs[0].version != vs[i].version;
      FindOnly(vs[1..], i - 1, os, arch);
    }
  }

  /** A restarted registry resolves a version to what its meta.json lists. */
  lemma LoadedFind(metas: Metas, artifact: string, vs: seq<Version>, version: string, os: string, arch: string)
    requires Loads(metas, artifact, vs)
    ensures Find(vs, version, os, arch) == Reread(metas, artifact, version, os, arch)
  {
    if (artifact, version) in metas {
      var i :| 0 <= i < |vs| && vs[i].version == (artifact, version).1;
      FindOnly(vs, i, os, arch);
    } else {
      FindNone(vs, version, os, arch);
    }
  }

  /** Each version's meta.json is one of the index's entries for it. */
  predicate MetaOk(vs: seq<Version>, metas: Metas, artifact: string) {
    && (forall i :: 0 <= i < |vs| ==> (artifact, vs[i].version) in metas)
    && (forall k :: k in metas && k.0 == artifact ==> metas[k] in vs && metas[k].version == k.1)
  }

  lemma ReorderKeepsEntries(src: seq<Version>, out: seq<Version>, p: seq<nat>, q: seq<nat>, v: Version)
    requires Reorders(src, out, p, q)
    ensures v in src <==> v in out
  {
    if v in src {
      var i :| 0 <= i < |src| && src[i] == v;
      assert out[q[i]] == v;
    }
    if v in out {
      var i :| 0 <= i < |out| && out[i] == v;
      assert src[p[i]] == v;
    }
  }

  lemma MetaReordered(src: seq<Version>, out: seq<Version>, metas: Metas, artifact: string)
    requires MetaOk(src, metas, artifact) && forall v :: v in src <==> v in out
    ensures MetaOk(out, metas, artifact)
  {
    forall i | 0 <= i < |out| ensures (artifact, out[i].version) in metas {
      assert out[i] in src;
    }
  }

  lemma MetaAppend(vs: seq<Version>, metas: Metas, artifact: string, v: Version)
    requires MetaOk(vs, metas, artifact)
    ensures MetaOk(vs + [v], metas[(artifact, v.version) := v], artifact)
  {
  }

  lemma PublishKeepsMeta(idx: Index, sort: seq<Version> -> seq<Version>, r: Request, artifact: string)
    requires MetaOk(EntriesOf(idx, artifact), idx.metas, artifact) && Sorts(sort)
    ensures var idx' := PublishSpec(idx, sort, r); MetaOk(EntriesOf(idx', artifact), idx'.metas, artifact)
  {
    if Accepts(idx, r) && artifact == r.artifact {
      var v := NewEntry(idx, r);
      var src := EntriesOf(idx, artifact) + [v];
      var out := sort(src);
      var p, q :| Reorders(src, out, p, q);
      hide Reorders, Sorts, Conflict;
      MetaAppend(EntriesOf(idx, artifact), idx.metas, artifact, v);
      forall x ensures x in src <==> x in out {
        ReorderKeepsEntries(src, out, p, q, x);
      }
      hide MetaOk;
      MetaReordered(src, out, idx.metas[(artifact, v.version) := v], artifact);
    }
  }

  lemma NothingLost(vs: seq<Version>, metas: Metas, artifact: string, version: string, os: string, arch: string)
    requires Unique(vs) && MetaOk(vs, metas, artifact)
    requires forall i :: 0 <= i < |vs| ==> vs[i] == metas[(artifact, vs[i].version)] || vs[i].platforms == []
    ensures Reread(metas, artifact, version, os, arch) == Find(vs, version, os, arch)
  {
    if Find(vs, version, os, arch).Some? {
      var i, j := FindSound(vs, version, os, arch);
      FindInIff(vs[i].platforms, os, arch, j);
    } else if Reread(metas, artifact, version, os, arch).Some? {
      var k := (artifact, version);
      assert metas[k] in vs;
      var i :| 0 <= i < |vs| && vs[i] == metas[k];
      var j := FindInSound(vs[i].platforms, os, arch);
      FindIff(vs, version, os, arch, i, j);
    }
  }

  lemma EntryLost(vs: seq<Version>, metas: Metas, artifact: string, i: nat, j: nat)
    requires Unique(vs) && MetaOk(vs, metas, artifact)
    requires i < |vs| && vs[i] != metas[(artifact, vs[i].version)] && j < |vs[i].platforms|
    ensures var p := vs[i].platforms[j];
            Find(vs, vs[i].version, p.os, p.arch) == Some(p)
            && Reread(metas, artifact, vs[i].version, p.os, p.arch).None?
  {
    var p := vs[i].platforms[j];
    var key := (artifact, vs[i].version);
    FindIff(vs, vs[i].version, p.os, p.arch, i, j);
    assert metas[key] in vs && metas[key].version == key.1;
    var k :| 0 <= k < |vs| && vs[k] == metas[key];
    assert Apart(vs[i], vs[k]) && !Has(vs[k], p.os, p.arch);
    if FindIn(vs[k].platforms, p.os, p.arch).Some? {
      var n := FindInSound(vs[k].platforms, p.os, p.arch);
      assert false;
    }
  }

  /** A restart changes no lookup exactly if every entry its meta.json no longer shows is empty:
      publishing more platforms for a version later makes the earlier ones vanish at a restart. */
  lemma ReloadIff(vs: seq<Version>, metas: Metas, artifact: string)
    requires Unique(vs) && MetaOk(vs, metas, artifact)
    ensures (forall version, os, arch :: Reread(metas, artifact, version, os, arch) == Find(vs, version, os, arch)) <==>
            (forall i :: 0 <= i < |vs| ==> vs[i] == metas[(artifact, vs[i].version)] || vs[i].platforms == [])
  {
    if forall i :: 0 <= i < |vs| ==> vs[i] == metas[(artifact, vs[i].version)] || vs[i].platforms == [] {
      forall version, os, arch ensures Reread(metas, artifact, version, os, arch) == Find(vs, version, os, arch) {
        NothingLost(vs, metas, artifact, version, os, arch);
      }
    } else {
      var i :| 0 <= i < |vs| && vs[i] != metas[(artifact, vs[i].version)] && vs[i].platforms != [];
      EntryLost(vs, metas, artifact, i, 0);
      var p := vs[i].platforms[0];
      assert Reread(metas, artifact, vs[i].version, p.os, p.arch) != Find(vs, vs[i].version, p.os, p.arch);
    }
  }

  // ---- the registry itself ----

  method ScanPlatforms(ps: seq<Platform>, os: string, arch: string) returns (p: Option<Platform>)
    ensures p == FindIn(ps, os, arch)
  {
    for j := 0 to |ps|
      invariant FindIn(ps, os, arch) == FindIn(ps[j..], os, arch)
    {
      assert ps[j..][1..] == ps[j + 1..];
      if ps[j].os == os && ps[j].arch == arch {
        return Some(ps[j]);
      }
    }
    p := None;
  }

  method BuildPlatforms(binaries: seq<Binary>) returns (ps: seq<Platform>)
    requires forall i :: 0 <= i < |binaries| ==> SplitKey(binaries[i].key).Some?
    ensures ps == Builds(binaries)
  {
    ps := [];
    for i := 0 to |binaries|
      invariant |ps| == i && forall j :: 0 <= j < i ==> ps[j] == Build(binaries[j])
    {
      var split := SplitKey(binaries[i].key).value;
      ps := ps + [Platform(split.0, split.1, binaries[i].hash)];
    }
  }

  class FsRegistry {
    const sort: seq<Version> -> seq<Version>
    var versions: map<string, seq<Version>>
    var metas: Metas

    constructor (sort: seq<Version> -> seq<Version>)
      ensures this.sort == sort && View() == Index(map[], map[])
      ensures Consistent(View())
    {
      this.sort, versions, metas := sort, map[], map[];
    }

    function View(): Index
      reads this
    {
      Index(versions, metas)
    }

    /** findPlatformLocked. */
    method FindPlatform(artifact: string, version: string, os: string, arch: string) returns (p: Option<Platform>)
      ensures p == Resolved(View(), artifact, version, os, arch)
    {
      var vs := EntriesOf(View(), artifact);
      for i := 0 to |vs|
        invariant Find(vs, version, os, arch) == Find(vs[i..], version, os, arch)
      {
        assert vs[i..][1..] == vs[i + 1..];
        if vs[i].version == version {
          var found := ScanPlatforms(vs[i].platforms, os, arch);
          if found.Some? {
            return found;
          }
        }
      }
      p := None;
    }

    /** Resolve. */
    method Resolve(artifact: string, os: string, arch: string) returns (p: Option<Platform>)
      ensures p == Latest(EntriesOf(View(), artifact), os, arch)
    {
      var vs := EntriesOf(View(), artifact);
      for i := 0 to |vs|
        invariant Latest(vs, os, arch) == Latest(vs[i..], os, arch)
      {
        assert vs[i..][1..] == vs[i + 1..];
        if !vs[i].preRelease {
          var found := ScanPlatforms(vs[i].platforms, os, arch);
          if found.Some? {
            return found;
          }
        }
      }
      p := None;
    }

    /** ListPlatforms. */
    method ListPlatforms(artifact: string, version: string) returns (ps: seq<Platform>)
      ensures ps == Listing(EntriesOf(View(), artifact), version)
    {
      var vs := EntriesOf(View(), artifact);
      for i := 0 to |vs|
        invariant Listing(vs, version) == Listing(vs[i..], version)
      {
        assert vs[i..][1..] == vs[i + 1..];
        if version != "" {
          if vs[i].version != version {
            continue;
          }
        } else if vs[i].preRelease {
          continue;
        }
        return vs[i].platforms;
      }
      ps := [];
    }

    method CheckConflicts(r: Request) returns (err: Option<Error>)
      ensures err == Conflict(EntriesOf(View(), r.artifact), r.version, r.binaries)
    {
      ghost var vs := EntriesOf(View(), r.artifact);
      for i := 0 to |r.binaries|
        invariant Conflict(vs, r.version, r.binaries) == Conflict(vs, r.version, r.binaries[i..])
      {
        assert r.binaries[i..][1..] == r.binaries[i + 1..];
        var split := SplitKey(r.binaries[i].key);
        if split.None? {
          return Some(InvalidKey);
        }
        var p := FindPlatform(r.artifact, r.version, split.value.0, split.value.1);
        if p.Some? {
          return Some(AlreadyExists);
        }
      }
      err := None;
    }

    /** Publish, for the distinct keys of a map in its iteration order. */
    method Publish(r: Request) returns (err: Option<Error>)
      requires Consistent(View()) && Sorts(sort) && DistinctKeys(r.binaries)
      modifies this
      ensures err == Conflict(EntriesOf(old(View()), r.artifact), r.version, r.binaries)
      ensures View() == PublishSpec(old(View()), sort, r) && Consistent(View())
    {
      ghost var vs := EntriesOf(View(), r.artifact);
      PublishIsImmutable(View(), sort, r, r.artifact, r.version, "", "");
      hide Consistent, Sorts, Find, DistinctKeys;
      err := CheckConflicts(r);
      if err.Some? {
        return;
      }
      ConflictIff(vs, r.version, r.binaries);
      hide Conflict;
      var platforms := BuildPlatforms(r.binaries);
      var v := Version(r.version, r.preRelease, r.at, platforms);
      metas := metas[(r.artifact, r.version) := v];
      versions := versions[r.artifact := sort(EntriesOf(View(), r.artifact) + [v])];
    }
  }

  // ---- the dispatcher's view ----

  function Pairs(ps: seq<Platform>): (r: seq<(string, string)>)
    ensures |r| == |ps| && forall i :: 0 <= i < |ps| ==> r[i] == (ps[i].os, ps[i].arch)
  {
    seq(|ps|, i requires 0 <= i < |ps| => (ps[i].os, ps[i].arch))
  }

  /** The registry as the dispatch pass uses it: listed platforms, and whether a worker's platform
      resolves, by version if the job pins one. */
  function ForDispatch(idx: Index): Registry {
    Registry(
      (a, v) => Some(Pairs(Listing(EntriesOf(idx, a), v))),
      (a, v, os, arch) =>
        if v != "" then Find(EntriesOf(idx, a), v, os, arch).Some? else Latest(EntriesOf(idx, a), os, arch).Some?)
  }

  /** One operating system name goes on where the other stops, with a slash in between, and the
      architectures make up for it. */
  predicate Collides(os1: string, arch1: string, os2: string, arch2: string) {
    |os1| < |os2| && os2[..|os1|] == os1 && os2[|os1|] == '/' && arch1 == os2[|os1| + 1..] + "/" + arch2
  }

  lemma CollidingKeys(os1: string, arch1: string, os2: string, arch2: string)
    requires |os1| < |os2|
    ensures PlatformKey(os1, arch1) == PlatformKey(os2, arch2) <==> Collides(os1, arch1, os2, arch2)
  {
    var k, l, n := PlatformKey(os1, arch1), PlatformKey(os2, arch2), |os1|;
    assert k[..n] == os1 && k[n] == '/' && k[n + 1..] == arch1;
    assert l[..n] == os2[..n] && l[n] == os2[n] && l[n + 1..] == os2[n + 1..] + "/" + arch2;
    assert k == k[..n] + [k[n]] + k[n + 1..] && l == l[..n] + [l[n]] + l[n + 1..];
  }

  /** Exactly when two platforms have the same key. */
  lemma SameKeyIff(os1: string, arch1: string, os2: string, arch2: string)
    ensures PlatformKey(os1, arch1) == PlatformKey(os2, arch2) <==>
            (os1 == os2 && arch1 == arch2) || Collides(os1, arch1, os2, arch2) || Collides(os2, arch2, os1, arch1)
  {
    if |os1| < |os2| {
      CollidingKeys(os1, arch1, os2, arch2);
    } else if |os2| < |os1| {
      CollidingKeys(os2, arch2, os1, arch1);
    } else {
      var k, l, n := PlatformKey(os1, arch1), PlatformKey(os2, arch2), |os1|;
      assert k[..n] == os1 && k[n + 1..] == arch1 && l[..n] == os2 && l[n + 1..] == arch2;
    }
  }

  lemma PlatformKeyInjective(os1: string, arch1: string, os2: string, arch2: string)
    requires '/' !in os1 && '/' !in os2 && PlatformKey(os1, arch1) == PlatformKey(os2, arch2)
    ensures os1 == os2 && arch1 == arch2
  {
    SameKeyIff(os1, arch1, os2, arch2);
  }

  /** A worker whose platform key is one of those listed always resolves to an artifact. */
  lemma ListedWorkerResolves(idx: Index, env: Env, job: Job, c: Conn)
    requires Consistent(idx) && env.registry == Some(ForDispatch(idx))
    requires '/' !in c.os
    requires forall i :: 0 <= i < |Listing(EntriesOf(idx, job.taskName), job.artifactVersion)| ==>
               '/' !in Listing(EntriesOf(idx, job.taskName), job.artifactVersion)[i].os
    requires PlatformFits(env, job, c)
    ensures Resolves(env, job, c)
  {
    var vs := EntriesOf(idx, job.taskName);
    var ps := Listing(vs, job.artifactVersion);
    assert env.registry.value.list(job.taskName, job.artifactVersion) == Some(Pairs(ps));
    var i :| 0 <= i < |ps| && ps[i].os + "/" + ps[i].arch == c.os + "/" + c.arch;
    PlatformKeyInjective(c.os, c.arch, ps[i].os, ps[i].arch);
    assert Unique(vs);
    hide Unique, Listing;
    ListedResolves(vs, job.artifactVersion, i);
  }

  /** So with this registry the dispatch pass meets no registry error. */
  lemma RegistryCausesNoErrors(idx: Index, env: Env, pool: Pool, job: Job)
    requires Consistent(idx) && env.registry == Some(ForDispatch(idx))
    requires job.id in env.stored && forall w :: w in pool.workers ==> (job.id, w) !in env.sendFails
    requires forall w :: w in pool.workers ==> '/' !in pool.workers[w].os
    requires forall i :: 0 <= i < |Listing(EntriesOf(idx, job.taskName), job.artifactVersion)| ==>
               '/' !in Listing(EntriesOf(idx, job.taskName), job.artifactVersion)[i].os
    ensures NoErrors(env, pool, job)
  {
    forall w | w in pool.workers && PlatformFits(env, job, pool.workers[w])
      ensures Resolves(env, job, pool.workers[w])
    {
      ListedWorkerResolves(idx, env, job, pool.workers[w]);
    }
  }
}
