/**
 What holds of the world between any two calls while a challenge is being updated:
 it is sound, and it differs from the world the update started from only where the
 update may differ.
 */
module Safety {
  import opened Store
  import opened Instances
  import opened Containers

  ghost predicate Owned(db: Db, c: ContainerId) {
    exists i :: i in db.instances && c in db.instances[i].runtime.containers
  }

  ghost predicate Tracked(db: Db, c: ContainerId) {
    c in db.retired || Owned(db, c)
  }

  /** The tables and Docker agree: every running container is somebody's, ownership and
      retirement exclude each other, and ports held by containers are ports recorded. */
  ghost predicate Sound(w: World) {
    && IdsIssued(w)
    && Constraints(w.db)
    && OwnedOrRetired(w.db)
    && (forall i | i in w.db.instances :: FitsRuntime(w.containers, w.db.instances[i].runtime))
    && (forall c | c in w.running :: Tracked(w.db, c))
    && BuildsDistinct(w.db)
  }

  ghost predicate BuildsDistinct(db: Db) {
    forall b | b in db.builds :: DistinctImages(db.builds[b].output.images)
  }

  const MANUAL_PREFIX := "manual-"

  /** Schemas made for builds that users ask for directly. */
  predicate IsManual(name: string) {
    MANUAL_PREFIX <= name
  }

  /** An active build of the schema is a finished one. */
  ghost predicate ActiveComplete(db: Db, name: string) {
    forall b | b in db.builds && db.builds[b].schema == name && db.builds[b].instanceCount != LOCKED :: db.builds[b].output.flag != ""
  }

  /** Every build belongs to a schema on record. */
  ghost predicate SchemasOnRecord(db: Db) {
    forall b | b in db.builds :: db.builds[b].schema in db.schemas
  }

  /** Active builds of managed schemas are finished. */
  ghost predicate AllComplete(db: Db) {
    forall name: string | !IsManual(name) :: ActiveComplete(db, name)
  }

  /** What holds of the tables besides soundness, between any two operations. */
  ghost predicate Orderly(w: World) {
    Sound(w) && SchemasOnRecord(w.db) && AllComplete(w.db)
  }

  /** The challenge an instance belongs to is `ch`. */
  ghost predicate Belongs(db: Db, i: InstanceId, ch: ChallengeId) {
    i in db.instances && db.instances[i].build in db.builds && db.builds[db.instances[i].build].challenge == ch
  }

  /** Only rows of challenge `ch` changed, no row came or went, and an instance owns what it
      owned before or only containers created since `base`. */
  ghost predicate WithinTables(base: Db, d: Db, ch: ChallengeId, since: ContainerId) {
    && d.schemas == base.schemas
    && d.challenges.Keys == base.challenges.Keys
    && (forall k | k in base.challenges && k != ch :: d.challenges[k] == base.challenges[k])
    && d.builds.Keys == base.builds.Keys
    && (forall b | b in base.builds :: BuildKey(d.builds[b]) == BuildKey(base.builds[b]) && d.builds[b].instanceCount == base.builds[b].instanceCount)
    && (forall b | b in base.builds && base.builds[b].output.flag != "" :: d.builds[b].output.flag != "")
    && (forall b | b in base.builds && base.builds[b].challenge != ch :: d.builds[b] == base.builds[b])
    && d.instances.Keys == base.instances.Keys
    && (forall i | i in base.instances :: d.instances[i] == base.instances[i].(runtime := d.instances[i].runtime))
    && (forall i | i in base.instances && !Belongs(base, i, ch) :: d.instances[i] == base.instances[i])
    && (forall i | i in base.instances :: OldOrNew(base.instances[i].runtime, d.instances[i].runtime, since))
  }

  ghost predicate OldOrNew(old_: Runtime, now: Runtime, since: ContainerId) {
    || now == old_
    || (forall c | c in now.containers :: c >= since)
  }

  /** Containers never change, a container created since `base` is tracked unless it is the
      latest one, what was tracked stays tracked while it exists, and nothing an instance owns
      has disappeared. */
  ghost predicate WithinDocker(base: World, d: World) {
    && IdsIssued(base) && base.nextId <= d.nextId
    && (forall c | c in base.containers && c in d.containers :: d.containers[c] == base.containers[c])
    && (forall c | c in d.containers && c !in base.containers :: c >= base.nextId && (Tracked(d.db, c) || c + 1 == d.nextId))
    && (forall c | c in d.containers && c in base.containers && Tracked(base.db, c) :: Tracked(d.db, c))
    && (forall i, c | i in d.db.instances && c in d.db.instances[i].runtime.containers ::
          c in d.containers || (c !in base.containers && c < base.nextId))
  }

  ghost predicate OtherTags(base: map<TagName, Image>, d: map<TagName, Image>, ch: ChallengeId) {
    forall n: TagName | n.challenge != ch ::
      (n in d <==> n in base) && (n in base ==> d[n] == base[n])
  }

  /** A container of an instance of another challenge. */
  ghost predicate Others(base: World, ch: ChallengeId, c: ContainerId) {
    exists i :: i in base.db.instances && !Belongs(base.db, i, ch) && c in base.db.instances[i].runtime.containers && c in base.containers
  }

  /** Instances of other challenges keep running, on the host ports they have. */
  ghost predicate OthersRun(base: World, d: World, ch: ChallengeId) {
    forall c | Others(base, ch, c) :: c in d.containers && (c in base.running ==> c in d.running) && SameEntry(base.picked, d.picked, c)
  }

  ghost predicate OtherArtifacts(base: World, d: World, ch: ChallengeId) {
    forall a: ArtifactName | !(a.build in base.db.builds && base.db.builds[a.build].challenge == ch) ::
      (a in d.artifacts <==> a in base.artifacts) && (a in base.artifacts ==> d.artifacts[a] == base.artifacts[a])
  }

  ghost predicate Within(base: World, d: World, ch: ChallengeId) {
    && WithinTables(base.db, d.db, ch, base.nextId)
    && WithinDocker(base, d)
    && OthersRun(base, d, ch)
    && OtherTags(base.tags, d.tags, ch)
    && OtherArtifacts(base, d, ch)
  }

  /** What another challenge ran is still its own. */
  lemma OthersOwned(base: World, d: World, ch: ChallengeId, c: ContainerId)
    requires WithinTables(base.db, d.db, ch, base.nextId) && Others(base, ch, c)
    ensures exists i :: i in d.db.instances && !Belongs(base.db, i, ch) && c in d.db.instances[i].runtime.containers
    ensures Owned(d.db, c)
  {
    hide OldOrNew;
    var i :| i in base.db.instances && !Belongs(base.db, i, ch) && c in base.db.instances[i].runtime.containers && c in base.containers;
    assert d.db.instances[i] == base.db.instances[i];
  }

  /** So what an instance of the updated challenge runs is not. */
  lemma OwnAreNotOthers(base: World, s: World, ch: ChallengeId, i: InstanceId)
    requires Safe(base, s, ch) && Belongs(base.db, i, ch) && i in s.db.instances
    ensures forall c | c in s.db.instances[i].runtime.containers :: !Others(base, ch, c)
  {
    hide WithinTables, OthersRun, OtherTags, OtherArtifacts, Others, FitsRuntime, BuildsDistinct, Belongs;
    forall c | c in s.db.instances[i].runtime.containers && Others(base, ch, c)
      ensures false
    {
      OthersOwned(base, s, ch, c);
    }
  }

  // ------------------------------------------------------ whole candidates

  /** The images the record of `ch` asks for. */
  function RecordImages(db: Db, ch: ChallengeId): seq<HostImage> {
    if ch in db.challenges then ImagesOf(db.challenges[ch].hosts, db.challenges[ch].portMap) else []
  }

  /** `rt` is what an instance of `b` is moved to: one new container for each of `images` but
      the builder's, all made from the canonical tags there were at one time, of one
      generation, under the same host ports as far as the names had any in `old_`. */
  ghost predicate Candidate(containers: map<ContainerId, Container>, ch: ChallengeId, b: BuildId, images: seq<HostImage>,
                            old_: Runtime, rt: Runtime, since: ContainerId) {
    && (forall c | c in rt.containers :: c >= since)
    && |rt.containers| == RuntimeImages(images)
    && exists tags, g :: Runs(tags, containers, ch, b, images, old_.ports, rt) && TagsOfGeneration(tags, ch, b, images, g)
  }

  lemma CandidateStays(containers: map<ContainerId, Container>, later: map<ContainerId, Container>, ch: ChallengeId, b: BuildId,
                       images: seq<HostImage>, old_: Runtime, rt: Runtime, since: ContainerId)
    requires Candidate(containers, ch, b, images, old_, rt, since)
    requires forall c | c in rt.containers && c in later :: c in containers && later[c] == containers[c]
    ensures Candidate(later, ch, b, images, old_, rt, since)
  {
    hide Runs, TagsOfGeneration, RuntimeImages;
    var tags, g :| Runs(tags, containers, ch, b, images, old_.ports, rt) && TagsOfGeneration(tags, ch, b, images, g);
    RunsStays(tags, containers, tags, later, ch, b, images, old_.ports, rt);
  }

  /** Instance `i` owns all of what it owned in `base`, or all of its candidate. */
  ghost predicate OldOrCandidate(base: World, d: World, ch: ChallengeId, i: InstanceId, images: seq<HostImage>) {
    && i in base.db.instances && i in d.db.instances
    && var was, now := base.db.instances[i], d.db.instances[i].runtime;
       now == was.runtime || Candidate(d.containers, ch, was.build, images, was.runtime, now, base.nextId)
  }

  /** A build has the images it had in `base`, or those of the record. */
  ghost predicate OldOrRecorded(base: Db, d: Db, b: BuildId, images: seq<HostImage>) {
    && b in base.builds && b in d.builds
    && (d.builds[b].output.images == base.builds[b].output.images || d.builds[b].output.images == images)
  }

  /** No instance of the challenge, and no build, is half moved. */
  ghost predicate Whole(base: World, d: World, ch: ChallengeId) {
    && (forall b | b in base.db.builds && base.db.builds[b].challenge == ch :: OldOrRecorded(base.db, d.db, b, RecordImages(d.db, ch)))
    && (forall i | Belongs(base.db, i, ch) :: OldOrCandidate(base, d, ch, i, RecordImages(d.db, ch)))
  }

  lemma WholeStays(base: World, s: World, d: World, ch: ChallengeId)
    requires Whole(base, s, ch)
    requires d.db.challenges == s.db.challenges && d.db.builds == s.db.builds && d.db.instances == s.db.instances
    requires forall c | c in d.containers && Owned(s.db, c) :: c in s.containers && d.containers[c] == s.containers[c]
    ensures Whole(base, d, ch)
  {
    hide Candidate, ImagesOf;
    var images := RecordImages(s.db, ch);
    forall b | b in base.db.builds && base.db.builds[b].challenge == ch
      ensures OldOrRecorded(base.db, d.db, b, images)
    {
      assert OldOrRecorded(base.db, s.db, b, images);
    }
    forall i | Belongs(base.db, i, ch)
      ensures OldOrCandidate(base, d, ch, i, images)
    {
      assert OldOrCandidate(base, s, ch, i, images);
      var was, rt := base.db.instances[i], s.db.instances[i].runtime;
      if rt != was.runtime { CandidateStays(s.containers, d.containers, ch, was.build, images, was.runtime, rt, base.nextId); }
    }
  }

  lemma WholeReplaced(base: World, s: World, ch: ChallengeId, i: InstanceId, rt: Runtime)
    requires Whole(base, s, ch) && Belongs(base.db, i, ch) && i in s.db.instances
    requires
      || rt == base.db.instances[i].runtime
      || Candidate(s.containers, ch, base.db.instances[i].build, RecordImages(s.db, ch), base.db.instances[i].runtime, rt, base.nextId)
    ensures Whole(base, s.(db := ReplaceRuntime(s.db, i, rt)), ch)
  {
    hide Candidate, ImagesOf;
    var d := s.(db := ReplaceRuntime(s.db, i, rt));
    var images := RecordImages(s.db, ch);
    forall b | b in base.db.builds && base.db.builds[b].challenge == ch
      ensures OldOrRecorded(base.db, d.db, b, images)
    {
      assert OldOrRecorded(base.db, s.db, b, images);
    }
    forall j | Belongs(base.db, j, ch)
      ensures OldOrCandidate(base, d, ch, j, images)
    {
      assert OldOrCandidate(base, s, ch, j, images);
    }
  }

  /** The durable mark of an unfinished rebuild. */
  ghost predicate Marked(db: Db, ch: ChallengeId) {
    ch in db.challenges && db.challenges[ch].sourceDigest == ""
  }

  /** A world an update of `ch` may be stopped in. */
  ghost predicate Safe(base: World, d: World, ch: ChallengeId) {
    && Sound(d)
    && Within(base, d, ch)
    && Whole(base, d, ch)
    && Marked(d.db, ch)
  }

  /** Every container created since `base` is tracked. */
  ghost predicate Tidy(base: World, d: World) {
    forall c | c in d.containers && c !in base.containers :: Tracked(d.db, c)
  }

  // ------------------------------------------- what each kind of step keeps

  lemma SoundRun(s: World, d: World)
    requires Sound(s) && RunOnly(s, d)
    requires forall c | c in d.running && c !in s.running :: c in s.containers && Tracked(s.db, c)
    ensures Sound(d)
  {
    hide Constraints, OwnedOrRetired, FitsRuntime, BuildsDistinct;
    assert d.db == s.db;
  }

  lemma WithinRun(base: World, s: World, d: World, ch: ChallengeId)
    requires Within(base, s, ch) && RunOnly(s, d)
    requires forall c | Others(base, ch, c) :: c in s.running <==> c in d.running
    ensures Within(base, d, ch)
  {
    hide WithinTables, OtherTags, Others;
    assert d.db == s.db && d.containers == s.containers && d.tags == s.tags && d.nextId == s.nextId;
    assert WithinTables(base.db, d.db, ch, base.nextId);
    assert OtherTags(base.tags, d.tags, ch);
    assert WithinDocker(base, d);
  }

  lemma SafeRun(base: World, s: World, ch: ChallengeId, ids: set<ContainerId>)
    requires Safe(base, s, ch)
    requires forall c | c in ids :: Tracked(s.db, c) && !Others(base, ch, c)
    ensures forall d :: Paused(s, d, ids) ==> Safe(base, d, ch)
    ensures forall d :: Resumed(s, d, ids) ==> Safe(base, d, ch)
    ensures Tidy(base, s) ==> forall d :: RunOnly(s, d) ==> Tidy(base, d)
  {
    hide Sound, Within, Whole, Tracked, Others, Owned;
    forall d | Paused(s, d, ids) || Resumed(s, d, ids)
      ensures Safe(base, d, ch)
    {
      SoundRun(s, d);
      WithinRun(base, s, d, ch);
      WholeStays(base, s, d, ch);
    }
  }

  lemma RetiringKeepsConstraints(db: Db, retired: set<ContainerId>)
    ensures Constraints(db) ==> Constraints(db.(retired := retired))
    ensures BuildsDistinct(db) ==> BuildsDistinct(db.(retired := retired))
  {
  }

  lemma SoundGrown(s: World, d: World)
    requires Sound(s) && Grown(s, d)
    ensures Sound(d)
  {
    hide Constraints, BuildsDistinct;
    RetiringKeepsConstraints(s.db, d.db.retired);
    forall i | i in d.db.instances
      ensures FitsRuntime(d.containers, d.db.instances[i].runtime)
    {
      FitsLater(s.containers, d.containers, s.db.instances[i].runtime, s.nextId);
    }
    forall c | c in d.running
      ensures Tracked(d.db, c)
    {
      if c in s.running && c !in s.db.retired {
        assert Owned(s.db, c);
      }
    }
  }

  lemma FitsLater(containers: map<ContainerId, Container>, later: map<ContainerId, Container>, rt: Runtime, since: ContainerId)
    requires FitsRuntime(containers, rt)
    requires forall c | c in rt.containers :: c < since
    requires forall c | c in later && c < since :: c in containers && later[c] == containers[c]
    ensures FitsRuntime(later, rt)
  {
  }

  lemma TablesRetiring(base: Db, s: Db, ch: ChallengeId, since: ContainerId, retired: set<ContainerId>)
    requires WithinTables(base, s, ch, since)
    ensures WithinTables(base, s.(retired := retired), ch, since)
  {
    hide OldOrNew;
  }

  lemma WithinGrown(base: World, s: World, d: World, ch: ChallengeId)
    requires Sound(s) && Within(base, s, ch) && Tidy(base, s) && Grown(s, d)
    ensures Within(base, d, ch)
  {
    hide Sound, WithinTables, WithinDocker, OtherTags, OtherArtifacts, Others;
    TablesRetiring(base.db, s.db, ch, base.nextId, d.db.retired);
    SameArtifacts(base, s, d, ch);
    DockerGrown(base, s, d);
  }

  lemma DockerGrown(base: World, s: World, d: World)
    requires Sound(s) && WithinDocker(base, s) && Tidy(base, s) && Grown(s, d)
    ensures WithinDocker(base, d)
  {
    hide Constraints, BuildsDistinct, FitsRuntime, OwnedOrRetired;
    forall c | c in d.containers && c !in base.containers
      ensures c >= base.nextId && (Tracked(d.db, c) || c + 1 == d.nextId)
    {
      if c in s.containers && Owned(s.db, c) { assert Owned(d.db, c); }
    }
  }

  lemma SafeGrown(base: World, s: World, ch: ChallengeId)
    requires Safe(base, s, ch) && Tidy(base, s)
    ensures forall d :: Grown(s, d) ==> Safe(base, d, ch)
  {
    hide Sound, Within, Whole, Tidy;
    forall d | Grown(s, d)
      ensures Safe(base, d, ch)
    {
      SoundGrown(s, d);
      WithinGrown(base, s, d, ch);
      WholeGrown(base, s, d, ch);
    }
  }

  lemma WholeGrown(base: World, s: World, d: World, ch: ChallengeId)
    requires Sound(s) && Whole(base, s, ch) && Grown(s, d)
    ensures Whole(base, d, ch)
  {
    hide Whole, Constraints, FitsRuntime, BuildsDistinct, OwnedOrRetired;
    WholeStays(base, s, d, ch);
  }

  lemma SoundReaped(s: World, d: World, ids: set<ContainerId>)
    requires Sound(s) && Reaped(s, d, ids)
    requires forall c | c in ids :: !Owned(s.db, c)
    ensures Sound(d)
  {
    hide Constraints, BuildsDistinct;
    RetiringKeepsConstraints(s.db, d.db.retired);
    assert d.db == s.db.(retired := d.db.retired);
    forall i | i in d.db.instances
      ensures FitsRuntime(d.containers, d.db.instances[i].runtime)
    {
      FitsFewer(s.containers, d.containers, s.db.instances[i].runtime);
    }
    forall c | c in d.running
      ensures Tracked(d.db, c)
    {
      assert c in d.containers;
      if Owned(s.db, c) { assert Owned(d.db, c); }
    }
  }

  lemma FitsFewer(containers: map<ContainerId, Container>, fewer: map<ContainerId, Container>, rt: Runtime)
    requires FitsRuntime(containers, rt)
    requires forall c | c in fewer :: c in containers && fewer[c] == containers[c]
    ensures FitsRuntime(fewer, rt)
  {
  }

  lemma WithinReaped(base: World, s: World, d: World, ch: ChallengeId, ids: set<ContainerId>)
    requires Within(base, s, ch) && Reaped(s, d, ids)
    requires forall c | c in ids :: !Owned(s.db, c)
    ensures Within(base, d, ch)
    ensures Tidy(base, s) ==> Tidy(base, d)
  {
    hide WithinTables, OtherTags, OtherArtifacts, Others, Owned;
    TablesRetiring(base.db, s.db, ch, base.nextId, d.db.retired);
    SameArtifacts(base, s, d, ch);
    OthersNotReaped(base, s, d, ch, ids);
    DockerReaped(base, s, d, ids);
  }

  lemma SameArtifacts(base: World, s: World, d: World, ch: ChallengeId)
    requires OtherArtifacts(base, s, ch) && d.artifacts == s.artifacts
    ensures OtherArtifacts(base, d, ch)
  {
  }

  lemma OthersNotReaped(base: World, s: World, d: World, ch: ChallengeId, ids: set<ContainerId>)
    requires WithinTables(base.db, s.db, ch, base.nextId) && OthersRun(base, s, ch) && Reaped(s, d, ids)
    requires forall c | c in ids :: !Owned(s.db, c)
    ensures OthersRun(base, d, ch)
  {
    hide WithinTables, Others, Owned;
    forall c | Others(base, ch, c)
      ensures c in d.containers && (c in base.running ==> c in d.running)
    {
      OthersOwned(base, s, ch, c);
    }
  }

  lemma DockerReaped(base: World, s: World, d: World, ids: set<ContainerId>)
    requires WithinDocker(base, s) && Reaped(s, d, ids)
    requires forall c | c in ids :: !Owned(s.db, c)
    ensures WithinDocker(base, d)
    ensures Tidy(base, s) ==> Tidy(base, d)
  {
    assert d.db == s.db.(retired := d.db.retired) && d.tags == s.tags;
    assert d.containers.Keys <= s.containers.Keys;
    forall c | c in d.containers && Tracked(s.db, c)
      ensures Tracked(d.db, c)
    {
      if Owned(s.db, c) { assert Owned(d.db, c); }
    }
    forall i, c | i in d.db.instances && c in d.db.instances[i].runtime.containers
      ensures c in d.containers || (c !in base.containers && c < base.nextId)
    {
      assert Owned(s.db, c);
    }
  }

  lemma SafeReaped(base: World, s: World, ch: ChallengeId, ids: set<ContainerId>)
    requires Safe(base, s, ch)
    requires forall c | c in ids :: !Owned(s.db, c)
    ensures forall d :: Reaped(s, d, ids) ==> Safe(base, d, ch) && (Tidy(base, s) ==> Tidy(base, d))
  {
    hide Sound, Within, Whole, Tidy, Owned;
    forall d | Reaped(s, d, ids)
      ensures Safe(base, d, ch) && (Tidy(base, s) ==> Tidy(base, d))
    {
      SoundReaped(s, d, ids);
      WithinReaped(base, s, d, ch, ids);
      WholeStays(base, s, d, ch);
    }
  }

  /** Handing `rt` to instance `i` of the challenge being updated. */
  lemma SoundReplaced(s: World, i: InstanceId, rt: Runtime)
    requires Sound(s) && i in s.db.instances
    requires Constraints(ReplaceRuntime(s.db, i, rt))
    requires FitsRuntime(s.containers, rt)
    requires forall c | c in rt.containers :: c < s.nextId
    ensures Sound(s.(db := ReplaceRuntime(s.db, i, rt)))
  {
    hide Constraints, BuildsDistinct, FitsRuntime;
    var d := s.(db := ReplaceRuntime(s.db, i, rt));
    ConstraintsGiveUniqueContainers(s.db);
    ReplaceKeepsOwnership(s.db, i, rt);
    BuildsOnlyDistinct(s.db, d.db);
    assert d.db.instances[i].runtime == rt;
    forall c | c in d.running
      ensures Tracked(d.db, c)
    {
      if c in s.db.retired {
        if c in rt.containers { assert c in d.db.instances[i].runtime.containers; }
      } else {
        var j :| j in s.db.instances && c in s.db.instances[j].runtime.containers;
        assert j != i ==> d.db.instances[j] == s.db.instances[j];
        assert j == i && c in rt.containers ==> c in d.db.instances[i].runtime.containers;
      }
    }
  }

  lemma ConstraintsGiveUniqueContainers(db: Db)
    requires Constraints(db)
    ensures UniqueContainers(db.instances)
  {
  }

  lemma BuildsOnlyDistinct(s: Db, d: Db)
    requires d.builds == s.builds && BuildsDistinct(s)
    ensures BuildsDistinct(d)
  {
  }

  lemma TablesReplaced(base: Db, s: Db, ch: ChallengeId, since: ContainerId, i: InstanceId, rt: Runtime)
    requires WithinTables(base, s, ch, since)
    requires Belongs(base, i, ch) && i in s.instances
    requires OldOrNew(base.instances[i].runtime, rt, since)
    ensures WithinTables(base, ReplaceRuntime(s, i, rt), ch, since)
  {
    hide OldOrNew;
  }

  lemma WithinReplaced(base: World, s: World, ch: ChallengeId, i: InstanceId, rt: Runtime)
    requires Within(base, s, ch)
    requires Belongs(base.db, i, ch) && i in s.db.instances
    requires OldOrNew(base.db.instances[i].runtime, rt, base.nextId)
    requires forall c | c in rt.containers :: c in s.containers || (c !in base.containers && c < base.nextId)
    ensures Within(base, s.(db := ReplaceRuntime(s.db, i, rt)), ch)
    ensures Tidy(base, s) ==> Tidy(base, s.(db := ReplaceRuntime(s.db, i, rt)))
  {
    hide WithinTables, OtherTags, Others;
    var d := s.(db := ReplaceRuntime(s.db, i, rt));
    TablesReplaced(base.db, s.db, ch, base.nextId, i, rt);
    assert d.db.instances[i].runtime == rt;
    forall c | Tracked(s.db, c)
      ensures Tracked(d.db, c)
    {
      if c !in d.db.retired {
        if c in s.db.retired {
          assert c in d.db.instances[i].runtime.containers;
        } else {
          var j :| j in s.db.instances && c in s.db.instances[j].runtime.containers;
          assert j != i ==> d.db.instances[j] == s.db.instances[j];
          assert j == i ==> c in d.db.instances[i].runtime.containers;
        }
      }
    }
  }

  lemma SafeReplaced(base: World, s: World, ch: ChallengeId, i: InstanceId, rt: Runtime)
    requires Belongs(base.db, i, ch) && i in s.db.instances
    requires Constraints(ReplaceRuntime(s.db, i, rt))
    requires
      || rt == base.db.instances[i].runtime
      || Candidate(s.containers, ch, base.db.instances[i].build, RecordImages(s.db, ch), base.db.instances[i].runtime, rt, base.nextId)
    requires FitsRuntime(s.containers, rt) && Safe(base, s, ch)
    requires forall c | c in rt.containers :: c < s.nextId && (c in s.containers || (c !in base.containers && c < base.nextId))
    ensures
      var d := s.(db := ReplaceRuntime(s.db, i, rt));
      Safe(base, d, ch) && (Tidy(base, s) ==> Tidy(base, d))
  {
    hide Within, Whole, Tidy, FitsRuntime, Constraints, Sound, RecordImages, Runs, TagsOfGeneration, RuntimeImages;
    SoundReplaced(s, i, rt);
    WithinReplaced(base, s, ch, i, rt);
    WholeReplaced(base, s, ch, i, rt);
  }

  /** Launching containers and handing them to instance `i`. */
  lemma SafeDeployed(base: World, s: World, d: World, ch: ChallengeId, i: InstanceId, rt: Runtime)
    requires Safe(base, s, ch) && Tidy(base, s)
    requires Belongs(base.db, i, ch)
    requires Deployed(s, d, i, rt) && Constraints(d.db)
    requires Candidate(d.containers, ch, base.db.instances[i].build, RecordImages(s.db, ch), base.db.instances[i].runtime, rt, base.nextId)
    ensures Safe(base, d, ch) && Tidy(base, d)
    ensures d.db.instances[i].runtime == rt
  {
    hide Runs, TagsOfGeneration, RuntimeImages, ImagesOf;
    var w := d.(db := s.db.(retired := s.db.retired + rt.containers));
    assert Launched(s, w, rt);
    DeployedParts(base, s, d, w, ch, i, rt);
    SafeGrown(base, s, ch);
    assert Safe(base, w, ch);
    TidyLaunched(base, s, w, rt);
    SafeReplaced(base, w, ch, i, rt);
  }

  lemma DeployedParts(base: World, s: World, d: World, w: World, ch: ChallengeId, i: InstanceId, rt: Runtime)
    requires IdsIssued(s) && base.nextId <= s.nextId
    requires Belongs(base.db, i, ch) && Deployed(s, d, i, rt)
    requires w == d.(db := s.db.(retired := s.db.retired + rt.containers))
    ensures i in w.db.instances && i in base.db.instances
    ensures d == w.(db := ReplaceRuntime(w.db, i, rt)) && d.db.instances[i].runtime == rt
    ensures Grown(s, w) && FitsRuntime(w.containers, rt) && w.db.challenges == s.db.challenges
    ensures forall c | c in rt.containers :: c in w.containers && c < w.nextId
  {
    hide FitsRuntime;
    assert w.db.retired - rt.containers == s.db.retired - rt.containers;
  }

  lemma TidyLaunched(base: World, s: World, w: World, rt: Runtime)
    requires Tidy(base, s) && Launched(s, w, rt)
    ensures Tidy(base, w)
  {
    forall c | c in w.containers && c !in base.containers
      ensures Tracked(w.db, c)
    {
      if c in s.containers && Owned(s.db, c) { assert Owned(w.db, c); }
    }
  }

  /** No container of `base` has been removed. */
  ghost predicate Undiminished(base: World, d: World) {
    base.containers.Keys <= d.containers.Keys
  }

  /** `ids` are instance `i`'s or nobody's. */
  ghost predicate Exclusive(db: Db, i: InstanceId, ids: set<ContainerId>) {
    forall j, c | j in db.instances && c in db.instances[j].runtime.containers && c in ids :: j == i
  }

  /** What an instance owned in `base` can be given back to it at any time before it is removed. */
  lemma BaseRuntimeFits(base: World, d: World, ch: ChallengeId, i: InstanceId)
    requires Sound(base) && Safe(base, d, ch) && Undiminished(base, d) && Belongs(base.db, i, ch)
    ensures i in d.db.instances && i in base.db.instances
    ensures FitsRuntime(d.containers, base.db.instances[i].runtime)
    ensures forall c | c in base.db.instances[i].runtime.containers ::
      c < d.nextId && (c in d.containers || (c !in base.containers && c < base.nextId))
  {
    hide Constraints, BuildsDistinct, OwnedOrRetired, FitsRuntime, OtherTags, Tracked;
    FitsLater(base.containers, d.containers, base.db.instances[i].runtime, base.nextId);
  }
}
