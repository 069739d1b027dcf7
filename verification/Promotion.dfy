/**
 Moving a validated build from its staged names to its canonical ones, and back
 (docker.go).
 */
module Promotion {
  import opened Store

  /** `canonicalImageIDs` is what every canonical tag meant before the promotion. */
  datatype StagedBuildPromotion = StagedBuildPromotion(
    challenge: ChallengeId, build: BuildId, qualifier: string, hosts: seq<string>,
    canonicalImageIDs: map<TagName, Option<Image>>,
    hadArtifact: bool, installedArtifact: bool)

  function CanonicalTag(challenge: ChallengeId, b: BuildId, host: string): TagName {
    TagName(challenge, b, host, "")
  }

  /** The artifact file of a build under a qualifier; no qualifier names the canonical file. */
  function ArtifactFor(qualifier: string, b: BuildId): ArtifactName {
    if qualifier == "" then Canonical(b) else Staged(qualifier, b)
  }

  function Lookup<K(==), V>(m: map<K, V>, k: K): Option<V> {
    if k in m then Some(m[k]) else None
  }

  /** Only tags and artifacts of build `b` changed. */
  ghost predicate TagsOnly(s: World, d: World, challenge: ChallengeId, b: BuildId) {
    && d == s.(tags := d.tags, artifacts := d.artifacts)
    && (forall n: TagName | n.challenge != challenge || n.build != b :: Lookup(d.tags, n) == Lookup(s.tags, n))
    && (forall a: ArtifactName | a.build != b :: Lookup(d.artifacts, a) == Lookup(s.artifacts, a))
  }

  ghost predicate IsStagedTag(n: TagName, challenge: ChallengeId, b: BuildId, hosts: seq<string>, qualifier: string) {
    n.challenge == challenge && n.build == b && n.qualifier == qualifier && n.host in hosts
  }

  /** A qualifier nothing was named with yet. */
  predicate Unused(w: World, qualifier: string) {
    && qualifier != ""
    && (forall n | n in w.tags :: n.qualifier != qualifier)
    && (forall a | a in w.artifacts :: a.Canonical? || a.qualifier != qualifier)
  }

  /** `now` is `pre` except for the names the promotion may have touched, and the snapshot
      in `p` is of `pre`. */
  ghost predicate TagsTouched(pre: map<TagName, Image>, now: map<TagName, Image>, p: StagedBuildPromotion) {
    && (forall h | h in p.hosts :: CanonicalTag(p.challenge, p.build, h) in p.canonicalImageIDs)
    && (forall n | n in p.canonicalImageIDs :: n.challenge == p.challenge && n.build == p.build && n.qualifier == "" && p.canonicalImageIDs[n] == Lookup(pre, n))
    && (forall n | n !in p.canonicalImageIDs && !IsStagedTag(n, p.challenge, p.build, p.hosts, p.qualifier) ::
          Lookup(now, n) == Lookup(pre, n))
  }

  /** The canonical artifact is in the backup file exactly when it was moved there. */
  ghost predicate ArtifactsTouched(pre: map<ArtifactName, string>, now: map<ArtifactName, string>, p: StagedBuildPromotion) {
    var c, b, s := Canonical(p.build), Backup(p.qualifier, p.build), Staged(p.qualifier, p.build);
    && (forall a | a != c && a != b && a != s :: Lookup(now, a) == Lookup(pre, a))
    && (if p.hadArtifact then c in pre && Lookup(now, b) == Lookup(pre, c) else b !in now)
    && (!p.hadArtifact && !p.installedArtifact ==> Lookup(now, c) == Lookup(pre, c))
    && (!p.hadArtifact && p.installedArtifact ==> c !in pre)
  }

  ghost predicate Touched(pre: World, now: World, p: StagedBuildPromotion) {
    && TagsTouched(pre.tags, now.tags, p)
    && ArtifactsTouched(pre.artifacts, now.artifacts, p)
  }

  /** All that differs from `pre` is named with the qualifier of the staged build. */
  ghost predicate StagedOnly(pre: World, now: World, challenge: ChallengeId, b: BuildId, hosts: seq<string>, qualifier: string) {
    && (forall n | !IsStagedTag(n, challenge, b, hosts, qualifier) :: Lookup(now.tags, n) == Lookup(pre.tags, n))
    && (forall a | a != ArtifactFor(qualifier, b) :: Lookup(now.artifacts, a) == Lookup(pre.artifacts, a))
  }

  lemma TagsOnlyRefl(s: World, ch: ChallengeId, b: BuildId)
    ensures TagsOnly(s, s, ch, b)
  {
  }

  lemma TagsOnlyThen(s: World, mid: World, ch: ChallengeId, b: BuildId)
    requires TagsOnly(s, mid, ch, b)
    ensures forall d :: TagsOnly(mid, d, ch, b) ==> TagsOnly(s, d, ch, b)
  {
  }

  lemma TagsOnlyOneTag(s: World, n: TagName, image: Image)
    ensures TagsOnly(s, s.(tags := s.tags[n := image]), n.challenge, n.build)
    ensures TagsOnly(s, s.(tags := s.tags - {n}), n.challenge, n.build)
  {
  }

  // --------------------------------------------------------------- rollback

  /** Canonical tags of `done` mean again what they meant in `pre`. */
  ghost predicate TagsRestored(pre: map<TagName, Image>, now: map<TagName, Image>, done: set<TagName>) {
    forall n | n in done :: Lookup(now, n) == Lookup(pre, n)
  }

  lemma RestoreOne(pre: map<TagName, Image>, now: map<TagName, Image>, p: StagedBuildPromotion, done: set<TagName>, n: TagName)
    requires TagsTouched(pre, now, p) && n in p.canonicalImageIDs
    ensures
      var v := p.canonicalImageIDs[n];
      var d := if v.Some? then now[n := v.value] else now - {n};
      TagsTouched(pre, d, p) && (TagsRestored(pre, now, done) ==> TagsRestored(pre, d, done + {n}))
  {
  }

  /** The canonical names in `p` are names of its own build. */
  ghost predicate OwnNames(p: StagedBuildPromotion) {
    forall n | n in p.canonicalImageIDs :: n.challenge == p.challenge && n.build == p.build && n.qualifier == ""
  }

  method RollbackTags(m: Manager, p: StagedBuildPromotion, ghost pre: map<TagName, Image>) returns (ok: bool)
    requires OwnNames(p)
    modifies m
    ensures TagsTouched(pre, old(m.world.tags), p) ==> TagsTouched(pre, m.world.tags, p)
    ensures TagsTouched(pre, old(m.world.tags), p) && ok ==> TagsRestored(pre, m.world.tags, p.canonicalImageIDs.Keys)
    ensures m.world == old(m.world).(tags := m.world.tags)
    ensures m.reliable ==> ok
    ensures TagsOnly(old(m.world), m.world, p.challenge, p.build)
    ensures old(m.crashPoints) <= m.crashPoints
    ensures forall d | d in m.crashPoints :: d in old(m.crashPoints) || TagsOnly(old(m.world), d, p.challenge, p.build)
  {
    hide *;
    ghost var s := m.world;
    ghost var exact := TagsTouched(pre, s.tags, p);
    TagsOnlyRefl(s, p.challenge, p.build);
    RestoredNone(pre, s.tags);
    ok := true;
    var todo := p.canonicalImageIDs.Keys;
    assert p.canonicalImageIDs.Keys - todo == {};
    while todo != {}
      invariant todo <= p.canonicalImageIDs.Keys
      invariant exact ==> TagsTouched(pre, m.world.tags, p)
      invariant m.world == s.(tags := m.world.tags)
      invariant exact && ok ==> TagsRestored(pre, m.world.tags, p.canonicalImageIDs.Keys - todo)
      invariant m.reliable ==> ok
      invariant TagsOnly(s, m.world, p.challenge, p.build)
      invariant old(m.crashPoints) <= m.crashPoints
      invariant forall d | d in m.crashPoints :: d in old(m.crashPoints) || TagsOnly(s, d, p.challenge, p.build)
    {
      var n :| n in todo;
      ghost var mid := m.world;
      ghost var done := p.canonicalImageIDs.Keys - todo;
      if exact { RestoreOne(pre, mid.tags, p, done, n); }
      OwnName(p, n);
      TagsOnlyOneTag(mid, n, if p.canonicalImageIDs[n].Some? then p.canonicalImageIDs[n].value else NO_IMAGE);
      TagsOnlyThen(s, mid, p.challenge, p.build);
      if p.canonicalImageIDs[n] == None {
        var r := m.ImageRemove(n);
        ok := ok && r != Failed;
      } else {
        var tagged := m.ImageTag(p.canonicalImageIDs[n].value, n);
        ok := ok && tagged;
      }
      todo := todo - {n};
      assert p.canonicalImageIDs.Keys - todo == done + {n};
    }
    assert p.canonicalImageIDs.Keys - {} == p.canonicalImageIDs.Keys;
  }

  lemma RestoredNone(pre: map<TagName, Image>, now: map<TagName, Image>)
    ensures TagsRestored(pre, now, {})
  {
  }

  lemma OwnName(p: StagedBuildPromotion, n: TagName)
    requires OwnNames(p) && n in p.canonicalImageIDs
    ensures n.challenge == p.challenge && n.build == p.build
  {
  }

  /** Taking the artifact steps back in order: the installed file goes, the saved one returns. */
  lemma ArtifactsBack(pre: map<ArtifactName, string>, now: map<ArtifactName, string>, p: StagedBuildPromotion)
    requires ArtifactsTouched(pre, now, p)
    ensures
      var c, b := Canonical(p.build), Backup(p.qualifier, p.build);
      var removed := if p.installedArtifact then now - {c} else now;
      && ArtifactsTouched(pre, removed, p)
      && (p.hadArtifact ==> b in removed)
      && (forall a | a != Staged(p.qualifier, p.build) ::
            Lookup(if p.hadArtifact then removed[c := removed[b]] - {b} else removed, a)
            == if a == b then None else Lookup(pre, a))
  {
    var c, b := Canonical(p.build), Backup(p.qualifier, p.build);
    var removed := if p.installedArtifact then now - {c} else now;
    forall a | a != c
      ensures Lookup(removed, a) == Lookup(now, a)
    {
    }
    assert Lookup(removed, b) == Lookup(now, b);
    assert ArtifactsTouched(pre, removed, p);
    assert p.hadArtifact ==> b in removed;
    var back := if p.hadArtifact then removed[c := removed[b]] - {b} else removed;
    forall a | a != Staged(p.qualifier, p.build)
      ensures Lookup(back, a) == if a == b then None else Lookup(pre, a)
    {
      if a == b { assert Lookup(back, a) == None; }
      else if a == c { assert Lookup(back, a) == Lookup(pre, a); }
      else { assert Lookup(back, a) == Lookup(pre, a); }
    }
  }

  /**
   Restores every canonical tag and the canonical artifact, going on past errors and
   reporting whether there were any.
   */
  method RollbackStagedBuild(m: Manager, p: StagedBuildPromotion, ghost pre: World) returns (ok: bool)
    requires OwnNames(p)
    modifies m
    ensures ok && Unused(pre, p.qualifier) && Touched(pre, old(m.world), p) ==>
      StagedOnly(pre, m.world, p.challenge, p.build, p.hosts, p.qualifier)
    ensures m.reliable && Touched(pre, old(m.world), p) ==> ok
    ensures TagsOnly(old(m.world), m.world, p.challenge, p.build)
    ensures old(m.crashPoints) <= m.crashPoints
    ensures forall d | d in m.crashPoints :: d in old(m.crashPoints) || TagsOnly(old(m.world), d, p.challenge, p.build)
  {
    hide *;
    ghost var s := m.world;
    ghost var exact := Touched(pre, s, p);
    if exact { TouchedParts(pre, s, p); }
    ok := RollbackTags(m, p, pre.tags);
    ghost var t := m.world;
    if exact { ArtifactsBack(pre.artifacts, t.artifacts, p); }
    if p.installedArtifact {
      ArtifactStep(s, t, p.challenge, Canonical(p.build), Canonical(p.build));
      var r := m.FileRemove(Canonical(p.build));
      ok := ok && r != Failed;
    }
    if p.hadArtifact {
      ArtifactStep(s, m.world, p.challenge, Backup(p.qualifier, p.build), Canonical(p.build));
      var renamed := m.FileRename(Backup(p.qualifier, p.build), Canonical(p.build));
      ok := ok && renamed;
    }
    if ok && exact && Unused(pre, p.qualifier) { RolledBack(pre, t, m.world, p); }
  }

  lemma TouchedParts(pre: World, now: World, p: StagedBuildPromotion)
    requires Touched(pre, now, p)
    ensures TagsTouched(pre.tags, now.tags, p) && ArtifactsTouched(pre.artifacts, now.artifacts, p)
  {
  }

  /** Removing file `x`, or renaming it to `y`. */
  lemma ArtifactStep(s: World, t: World, ch: ChallengeId, x: ArtifactName, y: ArtifactName)
    requires TagsOnly(s, t, ch, x.build) && y.build == x.build
    ensures TagsOnly(s, t.(artifacts := t.artifacts - {x}), ch, x.build)
    ensures x in t.artifacts ==> TagsOnly(s, t.(artifacts := t.artifacts[y := t.artifacts[x]] - {x}), ch, x.build)
  {
  }

  lemma RolledBack(pre: World, t: World, d: World, p: StagedBuildPromotion)
    requires Unused(pre, p.qualifier)
    requires TagsTouched(pre.tags, t.tags, p) && TagsRestored(pre.tags, t.tags, p.canonicalImageIDs.Keys)
    requires ArtifactsTouched(pre.artifacts, t.artifacts, p)
    requires
      var c, b := Canonical(p.build), Backup(p.qualifier, p.build);
      var removed := if p.installedArtifact then t.artifacts - {c} else t.artifacts;
      && (p.hadArtifact ==> b in removed)
      && d == t.(artifacts := if p.hadArtifact then removed[c := removed[b]] - {b} else removed)
    ensures StagedOnly(pre, d, p.challenge, p.build, p.hosts, p.qualifier)
  {
    ArtifactsBack(pre.artifacts, t.artifacts, p);
    assert Lookup(pre.artifacts, Backup(p.qualifier, p.build)) == None;
  }

  // -------------------------------------------------------------- promotion

  function StagedTag(challenge: ChallengeId, b: BuildId, host: string, qualifier: string): TagName {
    TagName(challenge, b, host, qualifier)
  }

  /** The canonical tag of every host now names what its staged tag names. */
  ghost predicate Published(staged: map<TagName, Image>, now: map<TagName, Image>, p: StagedBuildPromotion, hosts: seq<string>) {
    forall h | h in hosts ::
      Lookup(now, CanonicalTag(p.challenge, p.build, h)) == Lookup(staged, StagedTag(p.challenge, p.build, h, p.qualifier))
  }

  /** The staged tags, and every tag of another build, are as in `s`. */
  ghost predicate CanonicalOnly(s: map<TagName, Image>, d: map<TagName, Image>, p: StagedBuildPromotion) {
    forall n | n !in p.canonicalImageIDs :: Lookup(d, n) == Lookup(s, n)
  }

  lemma SnapshotOne(pre: World, now: World, p: StagedBuildPromotion, k: nat, value: Option<Image>)
    requires k < |p.hosts| && p.qualifier != ""
    requires StagedOnly(pre, now, p.challenge, p.build, p.hosts, p.qualifier)
    requires SnapshotOf(pre.tags, p, k)
    requires value == Lookup(now.tags, CanonicalTag(p.challenge, p.build, p.hosts[k]))
    ensures SnapshotOf(pre.tags, p.(canonicalImageIDs := p.canonicalImageIDs[CanonicalTag(p.challenge, p.build, p.hosts[k]) := value]), k + 1)
  {
  }

  ghost predicate SnapshotOf(pre: map<TagName, Image>, p: StagedBuildPromotion, k: nat)
    requires k <= |p.hosts|
  {
    && (forall h | h in p.hosts[..k] :: CanonicalTag(p.challenge, p.build, h) in p.canonicalImageIDs)
    && (forall n | n in p.canonicalImageIDs :: n.challenge == p.challenge && n.build == p.build && n.qualifier == "" && p.canonicalImageIDs[n] == Lookup(pre, n))
  }

  lemma SnapshotDone(pre: World, now: World, p: StagedBuildPromotion)
    requires Unused(pre, p.qualifier)
    requires StagedOnly(pre, now, p.challenge, p.build, p.hosts, p.qualifier)
    requires SnapshotOf(pre.tags, p, |p.hosts|) && !p.hadArtifact && !p.installedArtifact
    ensures Touched(pre, now, p) && OwnNames(p)
  {
    assert p.hosts[..|p.hosts|] == p.hosts;
    assert Lookup(now.artifacts, Backup(p.qualifier, p.build)) == Lookup(pre.artifacts, Backup(p.qualifier, p.build));
    assert Lookup(now.artifacts, Canonical(p.build)) == Lookup(pre.artifacts, Canonical(p.build));
  }

  lemma PublishOne(pre: map<TagName, Image>, staged: map<TagName, Image>, now: map<TagName, Image>, p: StagedBuildPromotion, k: nat, image: Image)
    requires k < |p.hosts| && p.qualifier != ""
    requires TagsTouched(pre, now, p) && CanonicalOnly(staged, now, p)
    ensures
      var n := CanonicalTag(p.challenge, p.build, p.hosts[k]);
      var d := now[n := image];
      && TagsTouched(pre, d, p) && CanonicalOnly(staged, d, p)
      && (Published(staged, now, p, p.hosts[..k]) && Lookup(staged, StagedTag(p.challenge, p.build, p.hosts[k], p.qualifier)) == Some(image)
          ==> Published(staged, d, p, p.hosts[..k + 1]))
  {
    assert CanonicalTag(p.challenge, p.build, p.hosts[k]) in p.canonicalImageIDs;
  }

  lemma StagedUnmoved(pre: map<TagName, Image>, staged: map<TagName, Image>, now: map<TagName, Image>, p: StagedBuildPromotion, h: string)
    requires TagsTouched(pre, now, p) && CanonicalOnly(staged, now, p) && p.qualifier != ""
    ensures
      var n := StagedTag(p.challenge, p.build, h, p.qualifier);
      Lookup(now, n) == Lookup(staged, n) && (n in now ==> Lookup(now, n) == Some(now[n]))
  {
  }

  /** Gives every canonical tag the image its staged tag names. */
  method PublishTags(m: Manager, p: StagedBuildPromotion, ghost pre: map<TagName, Image>) returns (ok: bool)
    requires TagsTouched(pre, m.world.tags, p) && p.qualifier != ""
    modifies m
    ensures TagsTouched(pre, m.world.tags, p)
    ensures m.world == old(m.world).(tags := m.world.tags)
    ensures ok ==> Published(old(m.world.tags), m.world.tags, p, p.hosts)
    ensures CanonicalOnly(old(m.world.tags), m.world.tags, p)
    ensures m.reliable && AllTagged(old(m.world.tags), p.challenge, p.build, p.hosts, p.qualifier) ==> ok
    ensures TagsOnly(old(m.world), m.world, p.challenge, p.build)
    ensures old(m.crashPoints) <= m.crashPoints
    ensures forall d | d in m.crashPoints :: d in old(m.crashPoints) || TagsOnly(old(m.world), d, p.challenge, p.build)
  {
    hide TagsTouched, TagsOnly, Published, CanonicalOnly, Lookup;
    ghost var s := m.world;
    TagsOnlyRefl(s, p.challenge, p.build);
    PublishedNone(s.tags, p);
    assert p.hosts[..0] == [];
    for k := 0 to |p.hosts|
      invariant TagsTouched(pre, m.world.tags, p) && CanonicalOnly(s.tags, m.world.tags, p)
      invariant Published(s.tags, m.world.tags, p, p.hosts[..k])
      invariant m.world == s.(tags := m.world.tags)
      invariant TagsOnly(s, m.world, p.challenge, p.build)
      invariant old(m.crashPoints) <= m.crashPoints
      invariant forall d | d in m.crashPoints :: d in old(m.crashPoints) || TagsOnly(s, d, p.challenge, p.build)
    {
      ghost var mid := m.world;
      var staged := StagedTag(p.challenge, p.build, p.hosts[k], p.qualifier);
      StagedUnmoved(pre, s.tags, mid.tags, p, p.hosts[k]);
      TaggedStays(s.tags, mid.tags, p, k);
      if staged !in m.world.tags {
        return false;
      }
      var image := m.world.tags[staged];
      PublishOne(pre, s.tags, mid.tags, p, k, image);
      TagsOnlyOneTag(mid, CanonicalTag(p.challenge, p.build, p.hosts[k]), image);
      TagsOnlyThen(s, mid, p.challenge, p.build);
      var tagged := m.ImageTag(image, CanonicalTag(p.challenge, p.build, p.hosts[k]));
      if !tagged {
        return false;
      }
    }
    assert p.hosts[..|p.hosts|] == p.hosts;
    ok := true;
  }

  /** Every host has its staged image. */
  ghost predicate AllTagged(tags: map<TagName, Image>, challenge: ChallengeId, b: BuildId, hosts: seq<string>, qualifier: string) {
    forall h | h in hosts :: StagedTag(challenge, b, h, qualifier) in tags
  }

  lemma TaggedStays(s: map<TagName, Image>, now: map<TagName, Image>, p: StagedBuildPromotion, k: nat)
    requires k < |p.hosts| && var n := StagedTag(p.challenge, p.build, p.hosts[k], p.qualifier); Lookup(now, n) == Lookup(s, n)
    ensures AllTagged(s, p.challenge, p.build, p.hosts, p.qualifier) ==> StagedTag(p.challenge, p.build, p.hosts[k], p.qualifier) in now
  {
    assert p.hosts[k] in p.hosts;
  }

  lemma PublishedNone(s: map<TagName, Image>, p: StagedBuildPromotion)
    ensures Published(s, s, p, []) && CanonicalOnly(s, s, p)
  {
  }

  lemma ArtifactSaved(pre: map<ArtifactName, string>, now: map<ArtifactName, string>, p: StagedBuildPromotion)
    requires ArtifactsTouched(pre, now, p) && !p.hadArtifact && !p.installedArtifact
    requires Canonical(p.build) in now
    ensures
      var c, b := Canonical(p.build), Backup(p.qualifier, p.build);
      ArtifactsTouched(pre, now[b := now[c]] - {c}, p.(hadArtifact := true)) && c !in now[b := now[c]] - {c}
  {
    assert Lookup(now, Canonical(p.build)) == Lookup(pre, Canonical(p.build));
  }

  lemma ArtifactInstalled(pre: map<ArtifactName, string>, now: map<ArtifactName, string>, p: StagedBuildPromotion)
    requires ArtifactsTouched(pre, now, p) && !p.installedArtifact && Canonical(p.build) !in now
    requires Staged(p.qualifier, p.build) in now
    ensures
      var c, s := Canonical(p.build), Staged(p.qualifier, p.build);
      ArtifactsTouched(pre, now[c := now[s]] - {s}, p.(installedArtifact := true))
  {
    if !p.hadArtifact { assert Lookup(now, Canonical(p.build)) == Lookup(pre, Canonical(p.build)); }
  }

  lemma FlagsDoNotMatterForTags(pre: map<TagName, Image>, now: map<TagName, Image>, p: StagedBuildPromotion, had: bool, installed: bool)
    requires TagsTouched(pre, now, p)
    ensures TagsTouched(pre, now, p.(hadArtifact := had, installedArtifact := installed))
  {
  }

  /** Asks Docker what every canonical tag means now. */
  method SnapshotTags(m: Manager, p0: StagedBuildPromotion, ghost pre: World) returns (ok: bool, p: StagedBuildPromotion)
    requires p0.qualifier != "" && p0.canonicalImageIDs == map[]
    requires StagedOnly(pre, m.world, p0.challenge, p0.build, p0.hosts, p0.qualifier)
    ensures p == p0.(canonicalImageIDs := p.canonicalImageIDs)
    ensures ok ==> SnapshotOf(pre.tags, p, |p.hosts|)
    ensures m.reliable ==> ok
  {
    hide StagedOnly, SnapshotOf;
    p := p0;
    SnapshotNone(pre.tags, p);
    for k := 0 to |p.hosts|
      invariant p == p0.(canonicalImageIDs := p.canonicalImageIDs)
      invariant SnapshotOf(pre.tags, p, k)
    {
      var canonical := CanonicalTag(p.challenge, p.build, p.hosts[k]);
      var r, image := m.ImageInspect(canonical);
      if r != Done && r != NotFound {
        return false, p;
      }
      SnapshotOne(pre, m.world, p, k, if r == Done then Some(image) else None);
      p := p.(canonicalImageIDs := p.canonicalImageIDs[canonical := if r == Done then Some(image) else None]);
    }
    ok := true;
  }

  lemma SnapshotNone(pre: map<TagName, Image>, p: StagedBuildPromotion)
    requires p.canonicalImageIDs == map[]
    ensures SnapshotOf(pre, p, 0)
  {
  }

  /**
   Promotes a staged build: either every canonical tag and the canonical artifact are the
   staged ones and `p` can undo that, or nothing but staged names differs from `pre`.
   `clean` is false when undoing a failed promotion failed as well.
   */
  method PromoteStagedBuild(m: Manager, challenge: ChallengeId, b: BuildId, hosts: seq<string>, hasArtifacts: bool,
                            qualifier: string, ghost pre: World)
    returns (ok: bool, clean: bool, p: StagedBuildPromotion)
    requires Unused(pre, qualifier)
    requires StagedOnly(pre, m.world, challenge, b, hosts, qualifier)
    modifies m
    ensures p.challenge == challenge && p.build == b && p.hosts == hosts && p.qualifier == qualifier
    ensures ok ==> OwnNames(p) && Touched(pre, m.world, p) && Published(old(m.world.tags), m.world.tags, p, hosts)
    ensures ok ==> Lookup(m.world.artifacts, Canonical(b)) == if hasArtifacts then Lookup(old(m.world.artifacts), Staged(qualifier, b)) else None
    ensures !ok && clean ==> StagedOnly(pre, m.world, challenge, b, hosts, qualifier)
    ensures m.reliable ==> clean
    ensures
      var staged := AllTagged(old(m.world.tags), challenge, b, hosts, qualifier) && (hasArtifacts ==> Staged(qualifier, b) in old(m.world.artifacts));
      m.reliable && staged ==> ok
    ensures TagsOnly(old(m.world), m.world, challenge, b)
    ensures old(m.crashPoints) <= m.crashPoints
    ensures forall d | d in m.crashPoints :: d in old(m.crashPoints) || TagsOnly(old(m.world), d, challenge, b)
  {
    hide *;
    ghost var s := m.world;
    TagsOnlyRefl(s, challenge, b);
    UnusedParts(pre, qualifier);
    p := StagedBuildPromotion(challenge, b, qualifier, hosts, map[], false, false);
    ok, p := SnapshotTags(m, p, pre);
    if !ok {
      return false, true, p;
    }
    SnapshotDone(pre, s, p);
    TouchedParts(pre, s, p);
    ok := PublishTags(m, p, pre.tags);
    ghost var t := m.world;
    TagsOnlyThen(s, t, challenge, b);
    TouchedFrom(pre, t, p);
    if !ok {
      clean := RollbackStagedBuild(m, p, pre);
      return;
    }
    ok, clean, p := PromoteArtifact(m, p, hasArtifacts, pre);
    if ok { PublishedStays(s.tags, t.tags, p); }
  }

  lemma UnusedParts(pre: World, qualifier: string)
    requires Unused(pre, qualifier)
    ensures qualifier != ""
  {
  }

  lemma TouchedFrom(pre: World, now: World, p: StagedBuildPromotion)
    requires TagsTouched(pre.tags, now.tags, p) && ArtifactsTouched(pre.artifacts, now.artifacts, p)
    ensures Touched(pre, now, p)
  {
  }

  lemma PublishedStays(s: map<TagName, Image>, t: map<TagName, Image>, p: StagedBuildPromotion)
    ensures forall p0: StagedBuildPromotion | p0.challenge == p.challenge && p0.build == p.build && p0.qualifier == p.qualifier ::
      Published(s, t, p0, p.hosts) ==> Published(s, t, p, p.hosts)
  {
  }

  /** Saves the current artifact under the backup name and installs the staged one. */
  method PromoteArtifact(m: Manager, p0: StagedBuildPromotion, hasArtifacts: bool, ghost pre: World)
    returns (ok: bool, clean: bool, p: StagedBuildPromotion)
    requires Unused(pre, p0.qualifier) && Touched(pre, m.world, p0) && OwnNames(p0)
    requires !p0.hadArtifact && !p0.installedArtifact
    modifies m
    ensures p == p0.(hadArtifact := p.hadArtifact, installedArtifact := p.installedArtifact) && OwnNames(p)
    ensures ok ==> Touched(pre, m.world, p) && m.world.tags == old(m.world.tags)
    ensures ok ==> Lookup(m.world.artifacts, Canonical(p.build)) == if hasArtifacts then Lookup(old(m.world.artifacts), Staged(p.qualifier, p.build)) else None
    ensures !ok && clean ==> StagedOnly(pre, m.world, p.challenge, p.build, p.hosts, p.qualifier)
    ensures m.reliable ==> clean
    ensures m.reliable && (hasArtifacts ==> Staged(p.qualifier, p.build) in old(m.world.artifacts)) ==> ok
    ensures TagsOnly(old(m.world), m.world, p.challenge, p.build)
    ensures old(m.crashPoints) <= m.crashPoints
    ensures forall d | d in m.crashPoints :: d in old(m.crashPoints) || TagsOnly(old(m.world), d, p.challenge, p.build)
  {
    hide TagsOnly, Touched, TagsTouched, ArtifactsTouched, StagedOnly, Unused;
    ghost var s := m.world;
    p := p0;
    TagsOnlyRefl(s, p.challenge, p.build);
    ArtifactStep(s, s, p.challenge, Canonical(p.build), Backup(p.qualifier, p.build));
    TouchedParts(pre, s, p);
    var r := m.FileExists(Canonical(p.build));
    if r == Done {
      ArtifactSaved(pre.artifacts, s.artifacts, p);
      var saved := m.FileRename(Canonical(p.build), Backup(p.qualifier, p.build));
      if !saved {
        clean := RollbackStagedBuild(m, p, pre);
        return false, clean, p;
      }
      p := p.(hadArtifact := true);
      FlagsDoNotMatterForTags(pre.tags, s.tags, p0, true, false);
      TouchedFrom(pre, m.world, p);
    } else if r != NotFound {
      clean := RollbackStagedBuild(m, p, pre);
      return false, clean, p;
    }
    ghost var u := m.world;
    TagsOnlyThen(s, u, p.challenge, p.build);
    TouchedParts(pre, u, p);
    ArtifactStep(s, u, p.challenge, Staged(p.qualifier, p.build), Canonical(p.build));
    if hasArtifacts {
      if Staged(p.qualifier, p.build) in u.artifacts { ArtifactInstalled(pre.artifacts, u.artifacts, p); }
      var installed := m.FileRename(Staged(p.qualifier, p.build), Canonical(p.build));
      if !installed {
        clean := RollbackStagedBuild(m, p, pre);
        return false, clean, p;
      }
      FlagsDoNotMatterForTags(pre.tags, u.tags, p, p.hadArtifact, true);
      p := p.(installedArtifact := true);
      TouchedFrom(pre, m.world, p);
    }
    ok, clean := true, true;
  }

  // ------------------------------------------------------ finish and discard

  /** Tags named with `qualifier` for hosts in `done` are gone; no other tag moved. */
  ghost predicate StagedTagsRemoved(s: map<TagName, Image>, d: map<TagName, Image>, challenge: ChallengeId, b: BuildId, qualifier: string, done: seq<string>, all: seq<string>) {
    && (forall n | !IsStagedTag(n, challenge, b, all, qualifier) :: Lookup(d, n) == Lookup(s, n))
    && (forall n | IsStagedTag(n, challenge, b, done, qualifier) :: n !in d)
  }

  lemma StagedTagRemoved(s: map<TagName, Image>, now: map<TagName, Image>, challenge: ChallengeId, b: BuildId, qualifier: string, all: seq<string>, k: nat, ok: bool)
    requires k < |all|
    requires StagedTagsRemoved(s, now, challenge, b, qualifier, if ok then all[..k] else [], all)
    ensures StagedTagsRemoved(s, now - {StagedTag(challenge, b, all[k], qualifier)}, challenge, b, qualifier, if ok then all[..k + 1] else [], all)
    ensures StagedTagsRemoved(s, now, challenge, b, qualifier, [], all)
    ensures StagedTagsRemoved(s, now - {StagedTag(challenge, b, all[k], qualifier)}, challenge, b, qualifier, [], all)
  {
  }

  lemma StagedTagsRemovedNone(s: map<TagName, Image>, challenge: ChallengeId, b: BuildId, qualifier: string, all: seq<string>)
    ensures StagedTagsRemoved(s, s, challenge, b, qualifier, [], all)
  {
  }

  /** Some of the tags named with `qualifier` are gone, and nothing else changed. */
  ghost predicate StagedTagsDropped(s: World, d: World, challenge: ChallengeId, b: BuildId, qualifier: string, all: seq<string>) {
    d == s.(tags := d.tags) && StagedTagsRemoved(s.tags, d.tags, challenge, b, qualifier, [], all)
  }

  lemma StagedTagsDroppedTo(s: World, mid: World, challenge: ChallengeId, b: BuildId, qualifier: string, all: seq<string>, name: TagName)
    requires mid == s.(tags := mid.tags)
    ensures StagedTagsRemoved(s.tags, mid.tags, challenge, b, qualifier, [], all) ==> StagedTagsDropped(s, mid, challenge, b, qualifier, all)
    ensures StagedTagsRemoved(s.tags, mid.tags - {name}, challenge, b, qualifier, [], all) ==>
      StagedTagsDropped(s, mid.(tags := mid.tags - {name}), challenge, b, qualifier, all)
  {
  }

  method RemoveStagedTags(m: Manager, challenge: ChallengeId, b: BuildId, hosts: seq<string>, qualifier: string) returns (ok: bool)
    modifies m
    ensures m.world == old(m.world).(tags := m.world.tags)
    ensures StagedTagsRemoved(old(m.world.tags), m.world.tags, challenge, b, qualifier, if ok then hosts else [], hosts)
    ensures m.world.tags.Keys <= old(m.world.tags.Keys)
    ensures StagedTagsDropped(old(m.world), m.world, challenge, b, qualifier, hosts)
    ensures m.reliable ==> ok
    ensures TagsOnly(old(m.world), m.world, challenge, b)
    ensures old(m.crashPoints) <= m.crashPoints
    ensures forall d | d in m.crashPoints :: d in old(m.crashPoints) || TagsOnly(old(m.world), d, challenge, b)
    ensures forall d | d in m.crashPoints :: d in old(m.crashPoints) || StagedTagsDropped(old(m.world), d, challenge, b, qualifier, hosts)
  {
    hide *;
    ghost var s := m.world;
    TagsOnlyRefl(s, challenge, b);
    StagedTagsRemovedNone(s.tags, challenge, b, qualifier, hosts);
    StagedTagsDroppedTo(s, s, challenge, b, qualifier, hosts, TagName("", 0, "", ""));
    assert hosts[..0] == [];
    ok := true;
    for k := 0 to |hosts|
      invariant m.world == s.(tags := m.world.tags) && m.world.tags.Keys <= s.tags.Keys
      invariant StagedTagsRemoved(s.tags, m.world.tags, challenge, b, qualifier, if ok then hosts[..k] else [], hosts)
      invariant StagedTagsDropped(s, m.world, challenge, b, qualifier, hosts)
      invariant m.reliable ==> ok
      invariant TagsOnly(s, m.world, challenge, b)
      invariant old(m.crashPoints) <= m.crashPoints
      invariant forall d | d in m.crashPoints :: d in old(m.crashPoints) || TagsOnly(s, d, challenge, b)
      invariant forall d | d in m.crashPoints :: d in old(m.crashPoints) || StagedTagsDropped(s, d, challenge, b, qualifier, hosts)
    {
      ghost var mid := m.world;
      var name := TagName(challenge, b, hosts[k], qualifier);
      StagedTagNamed(challenge, b, hosts[k], qualifier);
      StagedTagRemoved(s.tags, mid.tags, challenge, b, qualifier, hosts, k, ok);
      StagedTagsDroppedTo(s, mid, challenge, b, qualifier, hosts, name);
      TagsOnlyOneTag(mid, name, NO_IMAGE);
      TagsOnlyThen(s, mid, challenge, b);
      var r := m.ImageRemove(name);
      ok := ok && r != Failed;
    }
    assert hosts[..|hosts|] == hosts;
  }

  lemma StagedTagNamed(challenge: ChallengeId, b: BuildId, host: string, qualifier: string)
    ensures StagedTag(challenge, b, host, qualifier) == TagName(challenge, b, host, qualifier)
  {
  }

  /** Drops the staged tags and the saved artifact of a promotion that is kept.  No canonical
      name is among them. */
  method FinishStagedBuild(m: Manager, p: StagedBuildPromotion) returns (ok: bool)
    requires p.qualifier != ""
    modifies m
    ensures forall n: TagName | n.qualifier == "" :: Lookup(m.world.tags, n) == Lookup(old(m.world.tags), n)
    ensures forall a | a != Backup(p.qualifier, p.build) :: Lookup(m.world.artifacts, a) == Lookup(old(m.world.artifacts), a)
    ensures m.world.tags.Keys <= old(m.world.tags.Keys)
    ensures ok ==> forall n | IsStagedTag(n, p.challenge, p.build, p.hosts, p.qualifier) :: n !in m.world.tags
    ensures ok && p.hadArtifact ==> Backup(p.qualifier, p.build) !in m.world.artifacts
    ensures m.reliable ==> ok
    ensures TagsOnly(old(m.world), m.world, p.challenge, p.build)
    ensures old(m.crashPoints) <= m.crashPoints
    ensures forall d | d in m.crashPoints :: d in old(m.crashPoints) || TagsOnly(old(m.world), d, p.challenge, p.build)
  {
    hide TagsOnly;
    ghost var s := m.world;
    ok := RemoveStagedTags(m, p.challenge, p.build, p.hosts, p.qualifier);
    ghost var t := m.world;
    ArtifactStep(s, t, p.challenge, Backup(p.qualifier, p.build), Backup(p.qualifier, p.build));
    if p.hadArtifact {
      var r := m.FileRemove(Backup(p.qualifier, p.build));
      ok := ok && r != Failed;
    }
  }

  /** Removes everything still named with the qualifier. */
  method DiscardStagedBuild(m: Manager, challenge: ChallengeId, b: BuildId, hosts: seq<string>, qualifier: string, ghost pre: World)
    returns (ok: bool)
    modifies m
    ensures m.world == old(m.world).(tags := m.world.tags, artifacts := m.world.artifacts)
    ensures ok && Unused(pre, qualifier) && StagedOnly(pre, old(m.world), challenge, b, hosts, qualifier) ==>
      m.world.tags == pre.tags && m.world.artifacts == pre.artifacts
    ensures m.reliable ==> ok
    ensures TagsOnly(old(m.world), m.world, challenge, b)
    ensures old(m.crashPoints) <= m.crashPoints
    ensures forall d | d in m.crashPoints :: d in old(m.crashPoints) || TagsOnly(old(m.world), d, challenge, b)
  {
    hide TagsOnly, StagedOnly, StagedTagsRemoved, Unused;
    ghost var s := m.world;
    ok := RemoveStagedTags(m, challenge, b, hosts, qualifier);
    ghost var t := m.world;
    FileOfBuild(qualifier, b);
    ArtifactStep(s, t, challenge, ArtifactFor(qualifier, b), ArtifactFor(qualifier, b));
    if Unused(pre, qualifier) && StagedOnly(pre, s, challenge, b, hosts, qualifier) { Discarded(pre, s, t, challenge, b, hosts, qualifier, ok); }
    var r := m.FileRemove(ArtifactFor(qualifier, b));
    ok := ok && r != Failed;
  }

  lemma FileOfBuild(qualifier: string, b: BuildId)
    ensures ArtifactFor(qualifier, b).build == b
  {
  }

  lemma Discarded(pre: World, s: World, t: World, challenge: ChallengeId, b: BuildId, hosts: seq<string>, qualifier: string, ok: bool)
    requires Unused(pre, qualifier) && StagedOnly(pre, s, challenge, b, hosts, qualifier)
    requires t == s.(tags := t.tags)
    requires StagedTagsRemoved(s.tags, t.tags, challenge, b, qualifier, if ok then hosts else [], hosts)
    ensures ok ==> t.tags == pre.tags
    ensures t.artifacts - {ArtifactFor(qualifier, b)} == pre.artifacts
  {
    if ok {
      forall n ensures Lookup(t.tags, n) == Lookup(pre.tags, n) {
        if IsStagedTag(n, challenge, b, hosts, qualifier) { assert n !in t.tags && n !in pre.tags; }
      }
      SameLookups(t.tags, pre.tags);
    }
    var rest := t.artifacts - {ArtifactFor(qualifier, b)};
    forall a ensures Lookup(rest, a) == Lookup(pre.artifacts, a) {
      if a == ArtifactFor(qualifier, b) { assert a !in pre.artifacts; }
      else { assert Lookup(rest, a) == Lookup(s.artifacts, a); }
    }
    SameLookups(rest, pre.artifacts);
  }

  lemma SameLookups<K, V>(a: map<K, V>, b: map<K, V>)
    requires forall k :: Lookup(a, k) == Lookup(b, k)
    ensures a == b
  {
    forall k ensures k in a <==> k in b { assert Lookup(a, k) == Lookup(b, k); }
    forall k | k in a ensures a[k] == b[k] { assert Lookup(a, k) == Lookup(b, k); }
  }
}
