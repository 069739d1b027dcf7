/**
 Rebuilding one build of a challenge and moving its instances over, with the way back
 (database_challenges.go, docker.go).
 */
module BuildUpdates {
  import opened Store
  import opened Instances
  import opened Containers
  import opened Safety
  import opened Cutover
  import opened Placement
  import opened Moving
  import opened Promotion
  import opened Building
  import opened Generations

  /** `previous` is the build row as it was; `cutovers` are in the order they were made. */
  datatype BuildUpdate = BuildUpdate(
    challenge: ChallengeId, build: BuildId, hosts: seq<string>, previous: Build, candidate: BuildOutput,
    qualifier: string, promotion: StagedBuildPromotion, cutovers: seq<InstanceCutover>)

  /** `clean` is false when a clean-up or undo call on the way failed. */
  datatype BuildUpdateResult = Updated(update: BuildUpdate, clean: bool) | Undone(clean: bool)

  /** The worlds an update went through: before it, once its build row was final, and after
      every cutover. */
  datatype Trail = Trail(pre: World, stages: seq<World>)

  // ---------------------------------------------------------- build records

  function WithOutput(db: Db, b: BuildId, output: BuildOutput, lastSolved: int): Db
    requires b in db.builds
  {
    db.(builds := db.builds[b := db.builds[b].(output := output, lastSolved := lastSolved)])
  }

  /** Only what a build produced, and when it was last solved, differs in the row of `b`. */
  ghost predicate RowOnly(s: Db, d: Db, b: BuildId) {
    && b in s.builds && b in d.builds
    && d == s.(builds := s.builds[b := s.builds[b].(output := d.builds[b].output, lastSolved := d.builds[b].lastSolved)])
  }

  lemma RowOnlyWithOutput(s: Db, mid: Db, b: BuildId, output: BuildOutput, lastSolved: int)
    requires RowOnly(s, mid, b)
    ensures RowOnly(s, WithOutput(mid, b, output, lastSolved), b)
    ensures output == s.builds[b].output && lastSolved == s.builds[b].lastSolved ==> WithOutput(mid, b, output, lastSolved) == s
    ensures Constraints(s) && (OneImagePerHost(output.images) || output == s.builds[b].output) ==> Constraints(WithOutput(mid, b, output, lastSolved))
  {
    var d := WithOutput(mid, b, output, lastSolved);
    assert d.builds == s.builds[b := s.builds[b].(output := output, lastSolved := lastSolved)];
    if output == s.builds[b].output && lastSolved == s.builds[b].lastSolved {
      assert d.builds == s.builds;
    }
  }

  /** Records what a build left behind: its row, then its lookups and its images one by one in
      place of the earlier ones, in one transaction. */
  method FinalizeBuild(m: Manager, b: BuildId, output: BuildOutput) returns (ok: bool)
    requires b in m.world.db.builds
    modifies m
    ensures ok ==> m.world == old(m.world).(db := WithOutput(old(m.world.db), b, output, 0)) && Constraints(m.world.db)
    ensures !ok ==> m.world == old(m.world)
    ensures m.reliable && Constraints(WithOutput(old(m.world.db), b, output, 0)) ==> ok
    ensures m.crashPoints == old(m.crashPoints) + {m.world}
  {
    var db := m.world.db;
    ghost var was := db.builds[b];
    var row := db.builds[b].(lastSolved := 0,
      output := BuildOutput(output.flag, map[], output.tweaks, [], output.hasArtifacts, output.source));
    var keys := output.lookups.Keys;
    while keys != {}
      invariant keys <= output.lookups.Keys
      invariant row == was.(lastSolved := 0, output := output.(lookups := output.lookups - keys, images := []))
    {
      var k :| k in keys;
      row := row.(output := row.output.(lookups := row.output.lookups[k := output.lookups[k]]));
      assert output.lookups - (keys - {k}) == (output.lookups - keys)[k := output.lookups[k]];
      keys := keys - {k};
    }
    assert output.lookups - {} == output.lookups;
    for n := 0 to |output.images|
      invariant row == was.(lastSolved := 0, output := output.(images := output.images[..n]))
    {
      var image := HostImage(output.images[n].host, {});
      var ports := output.images[n].ports;
      while ports != {}
        invariant ports <= output.images[n].ports
        invariant image == HostImage(output.images[n].host, output.images[n].ports - ports)
      {
        var p :| p in ports;
        image := image.(ports := image.ports + {p});
        assert output.images[n].ports - (ports - {p}) == (output.images[n].ports - ports) + {p};
        ports := ports - {p};
      }
      assert output.images[n].ports - {} == output.images[n].ports;
      assert image == output.images[n];
      row := row.(output := row.output.(images := row.output.images + [image]));
      assert output.images[..n + 1] == output.images[..n] + [output.images[n]];
    }
    assert output.images[..|output.images|] == output.images;
    ok := m.Commit(db.(builds := db.builds[b := row]));
  }

  // ------------------------------------------------- how far a step reaches

  /** An instance runs what it ran, what it ran in `base`, or something created since `s`. */
  ghost predicate Moves(base: World, s: World, d: World) {
    && s.nextId <= d.nextId && d.db.challenges == s.db.challenges
    && d.db.instances.Keys == s.db.instances.Keys
    && (forall i | i in s.db.instances ::
          || d.db.instances[i].runtime == s.db.instances[i].runtime
          || (i in base.db.instances && d.db.instances[i].runtime == base.db.instances[i].runtime)
          || (forall c | c in d.db.instances[i].runtime.containers :: c >= s.nextId))
  }

  lemma MovesTrans(base: World, s: World, mid: World, d: World)
    requires Moves(base, s, mid) && Moves(base, mid, d)
    ensures Moves(base, s, d)
  {
  }

  /** Nothing of another build of the challenge changed. */
  ghost predicate Elsewhere(s: World, d: World, ch: ChallengeId, b: BuildId) {
    && d.db.builds.Keys == s.db.builds.Keys
    && (forall x | x in s.db.builds && x != b :: d.db.builds[x] == s.db.builds[x])
    && (forall n: TagName | n.challenge != ch || n.build != b :: Lookup(d.tags, n) == Lookup(s.tags, n))
    && d.db.instances.Keys == s.db.instances.Keys
    && (forall i | i in s.db.instances :: d.db.instances[i].build == s.db.instances[i].build)
    && (forall i | i in s.db.instances && s.db.instances[i].build != b :: d.db.instances[i] == s.db.instances[i])
    && (forall i, c | i in s.db.instances && s.db.instances[i].build != b && c in s.db.instances[i].runtime.containers && c in s.running :: c in d.running)
    && (forall a: ArtifactName | a.build != b :: Lookup(d.artifacts, a) == Lookup(s.artifacts, a))
    && Keeps(s.containers, d.containers)
    && s.nextId <= d.nextId
    && (forall c | c in d.containers && c !in s.containers :: c >= s.nextId)
  }

  lemma ElsewhereTrans(s: World, mid: World, d: World, ch: ChallengeId, b: BuildId)
    requires Elsewhere(s, mid, ch, b) && Elsewhere(mid, d, ch, b)
    ensures Elsewhere(s, d, ch, b)
  {
  }

  lemma AheadMoves(base: World, s: World, d: World, ch: ChallengeId, cut: InstanceCutover)
    requires Ahead(s, d, cut) && UniqueContainers(s.db.instances)
    ensures Moves(base, s, d) && Elsewhere(s, d, ch, s.db.instances[cut.instance].build)
    ensures d.db.instances[cut.instance].runtime == cut.candidate && d.db.builds == s.db.builds
  {
  }

  /** Working on build `b` leaves the other builds of the challenge alone. */
  lemma GenerationElsewhere(s: World, d: World, ch: ChallengeId, b: BuildId, x: BuildId, g: string)
    requires IdsIssued(s) && Elsewhere(s, d, ch, b) && x != b && WhollyOf(s, x, g)
    ensures WhollyOf(d, x, g)
  {
    assert d.db.builds[x] == s.db.builds[x];
    assert Lookup(d.artifacts, Canonical(x)) == Lookup(s.artifacts, Canonical(x));
    forall image | image in d.db.builds[x].output.images
      ensures var n := CanonicalTag(d.db.builds[x].challenge, x, image.host); n in d.tags && d.tags[n].source == g
    {
      var n := CanonicalTag(s.db.builds[x].challenge, x, image.host);
      assert Lookup(d.tags, n) == Lookup(s.tags, n);
    }
  }

  // ------------------------------------------------ steps that keep it safe

  lemma SafeBuilt(base: World, s: World, ch: ChallengeId, b: BuildId, hosts: seq<string>, qualifier: string)
    requires Safe(base, s, ch) && Tidy(base, s) && b in base.db.builds && base.db.builds[b].challenge == ch
    ensures forall d :: Built(s, d, ch, b, hosts, qualifier) ==> Safe(base, d, ch)
    ensures forall d :: Built(s, d, ch, b, hosts, qualifier) && NewAreRetired(s, d) ==> Tidy(base, d)
    ensures forall d :: Built(s, d, ch, b, hosts, qualifier) && Undiminished(base, s) ==> Undiminished(base, d)
  {
    hide Safe, StagedOnly, Grown, Tidy;
    forall d | Built(s, d, ch, b, hosts, qualifier)
      ensures Safe(base, d, ch) && (NewAreRetired(s, d) ==> Tidy(base, d))
      ensures Undiminished(base, s) ==> Undiminished(base, d)
    {
      var s' := s.(tags := d.tags, artifacts := d.artifacts);
      StagedTagsAreOwn(s, d, ch, b, hosts, qualifier);
      assert forall a: ArtifactName | a.build != b :: Lookup(s'.artifacts, a) == Lookup(s.artifacts, a);
      SafeTags(base, s, s', ch);
      SafeGrown(base, s', ch);
      GrownKeepsTracked(base, s', d);
    }
  }

  lemma StagedTagsAreOwn(s: World, d: World, ch: ChallengeId, b: BuildId, hosts: seq<string>, qualifier: string)
    requires StagedOnly(s, d, ch, b, hosts, qualifier)
    ensures forall n: TagName | n.challenge != ch || n.build != b :: Lookup(d.tags, n) == Lookup(s.tags, n)
    ensures forall a: ArtifactName | a.build != b :: Lookup(d.artifacts, a) == Lookup(s.artifacts, a)
  {
  }

  lemma GrownKeepsTracked(base: World, s: World, d: World)
    requires Tidy(base, s) && Grown(s, d)
    ensures NewAreRetired(s, d) ==> Tidy(base, d)
    ensures Undiminished(base, s) ==> Undiminished(base, d)
  {
    forall c | c in d.containers && c !in base.containers && NewAreRetired(s, d)
      ensures Tracked(d.db, c)
    {
      if c in s.containers && Owned(s.db, c) { assert Owned(d.db, c); }
    }
  }

  lemma SafeTags(base: World, s: World, d: World, ch: ChallengeId)
    requires Safe(base, s, ch)
    requires d == s.(tags := d.tags, artifacts := d.artifacts)
    requires forall n: TagName | n.challenge != ch :: Lookup(d.tags, n) == Lookup(s.tags, n)
    requires forall a: ArtifactName | !(a.build in base.db.builds && base.db.builds[a.build].challenge == ch) ::
      Lookup(d.artifacts, a) == Lookup(s.artifacts, a)
    ensures Safe(base, d, ch) && (Tidy(base, s) ==> Tidy(base, d)) && (Undiminished(base, s) ==> Undiminished(base, d))
  {
    hide WithinTables, Constraints, OwnedOrRetired, BuildsDistinct, FitsRuntime, Tracked, Others, Whole;
    WholeStays(base, s, d, ch);
    forall n: TagName | n.challenge != ch
      ensures (n in d.tags <==> n in base.tags) && (n in base.tags ==> d.tags[n] == base.tags[n])
    {
      assert Lookup(d.tags, n) == Lookup(s.tags, n);
    }
    forall a: ArtifactName | !(a.build in base.db.builds && base.db.builds[a.build].challenge == ch)
      ensures (a in d.artifacts <==> a in base.artifacts) && (a in base.artifacts ==> d.artifacts[a] == base.artifacts[a])
    {
      assert Lookup(d.artifacts, a) == Lookup(s.artifacts, a);
    }
  }

  lemma SafeTagsOnly(base: World, s: World, ch: ChallengeId, b: BuildId)
    requires Safe(base, s, ch) && b in base.db.builds && base.db.builds[b].challenge == ch
    ensures forall d :: TagsOnly(s, d, ch, b) ==>
      && Safe(base, d, ch) && (Tidy(base, s) ==> Tidy(base, d)) && (Undiminished(base, s) ==> Undiminished(base, d))
      && Moves(base, s, d) && Elsewhere(s, d, ch, b) && (Calm(base, s, ch) ==> Calm(base, d, ch))
  {
    hide Safe, Tidy, Undiminished;
    forall d | TagsOnly(s, d, ch, b)
      ensures Safe(base, d, ch) && (Tidy(base, s) ==> Tidy(base, d)) && (Undiminished(base, s) ==> Undiminished(base, d))
      ensures Moves(base, s, d) && Elsewhere(s, d, ch, b) && (Calm(base, s, ch) ==> Calm(base, d, ch))
    {
      SafeTags(base, s, d, ch);
    }
  }

  lemma SoundRow(s: World, b: BuildId, output: BuildOutput, lastSolved: int)
    requires Sound(s) && b in s.db.builds && DistinctImages(output.images)
    requires Constraints(WithOutput(s.db, b, output, lastSolved))
    ensures Sound(s.(db := WithOutput(s.db, b, output, lastSolved)))
  {
    hide Constraints, FitsRuntime, DistinctImages;
    var d := s.(db := WithOutput(s.db, b, output, lastSolved));
    forall c | c in d.running
      ensures Tracked(d.db, c)
    {
      if Owned(s.db, c) { assert Owned(d.db, c); }
    }
  }

  lemma TablesRow(base: Db, s: Db, ch: ChallengeId, since: ContainerId, b: BuildId, output: BuildOutput, lastSolved: int)
    requires WithinTables(base, s, ch, since) && b in s.builds && b in base.builds && base.builds[b].challenge == ch
    requires base.builds[b].output.flag != "" ==> output.flag != ""
    ensures WithinTables(base, WithOutput(s, b, output, lastSolved), ch, since)
  {
    hide OldOrNew;
  }

  lemma WithinRow(base: World, s: World, ch: ChallengeId, b: BuildId, output: BuildOutput, lastSolved: int)
    requires Within(base, s, ch) && b in s.db.builds && b in base.db.builds && base.db.builds[b].challenge == ch
    requires base.db.builds[b].output.flag != "" ==> output.flag != ""
    ensures
      var d := s.(db := WithOutput(s.db, b, output, lastSolved));
      Within(base, d, ch) && (Tidy(base, s) ==> Tidy(base, d))
  {
    hide WithinTables, OtherTags, Others;
    TablesRow(base.db, s.db, ch, base.nextId, b, output, lastSolved);
    var d := s.(db := WithOutput(s.db, b, output, lastSolved));
    forall c | Tracked(s.db, c)
      ensures Tracked(d.db, c)
    {
      if Owned(s.db, c) { assert Owned(d.db, c); }
    }
  }

  lemma WholeRow(base: World, s: World, ch: ChallengeId, b: BuildId, output: BuildOutput, lastSolved: int)
    requires Whole(base, s, ch) && b in s.db.builds && b in base.db.builds
    requires output.images == base.db.builds[b].output.images || output.images == RecordImages(s.db, ch)
    ensures Whole(base, s.(db := WithOutput(s.db, b, output, lastSolved)), ch)
  {
    hide Candidate, ImagesOf;
    var d := s.(db := WithOutput(s.db, b, output, lastSolved));
    var images := RecordImages(s.db, ch);
    forall x | x in base.db.builds && base.db.builds[x].challenge == ch
      ensures OldOrRecorded(base.db, d.db, x, images)
    {
      assert OldOrRecorded(base.db, s.db, x, images);
    }
    forall i | Belongs(base.db, i, ch)
      ensures OldOrCandidate(base, d, ch, i, images)
    {
      assert OldOrCandidate(base, s, ch, i, images);
    }
  }

  lemma SafeRow(base: World, s: World, ch: ChallengeId, b: BuildId, output: BuildOutput, lastSolved: int)
    requires Safe(base, s, ch) && b in base.db.builds && base.db.builds[b].challenge == ch
    requires DistinctImages(output.images) && b in s.db.builds
    requires base.db.builds[b].output.flag != "" ==> output.flag != ""
    requires output.images == base.db.builds[b].output.images || output.images == RecordImages(s.db, ch)
    ensures
      var d := s.(db := WithOutput(s.db, b, output, lastSolved));
      Constraints(d.db) ==>
        && Safe(base, d, ch) && (Tidy(base, s) ==> Tidy(base, d)) && (Undiminished(base, s) ==> Undiminished(base, d))
        && Moves(base, s, d) && Elsewhere(s, d, ch, b) && (Calm(base, s, ch) ==> Calm(base, d, ch))
  {
    hide Sound, Within, Tidy, Constraints, DistinctImages, Whole, RecordImages;
    var d := s.(db := WithOutput(s.db, b, output, lastSolved));
    if Constraints(d.db) { SoundRow(s, b, output, lastSolved); }
    WithinRow(base, s, ch, b, output, lastSolved);
    WholeRow(base, s, ch, b, output, lastSolved);
    SameRowsQuiet(s, d);
  }

  // --------------------------------------------------------------- rollback

  /** Every cutover can still be taken back: it moved an instance away from what it ran in
      `base`, and nobody else owns what it moved to. */
  ghost predicate CutsUndoable(base: World, now: World, ch: ChallengeId, cuts: seq<InstanceCutover>) {
    forall cut | cut in cuts ::
      && Belongs(base.db, cut.instance, ch) && cut.old_ == base.db.instances[cut.instance].runtime
      && (forall c | c in cut.candidate.containers :: base.nextId <= c < now.nextId)
      && Exclusive(now.db, cut.instance, cut.candidate.containers)
  }

  ghost predicate Undoable(base: World, now: World, ch: ChallengeId, u: BuildUpdate) {
    && u.challenge == ch && u.build in base.db.builds && base.db.builds[u.build].challenge == ch
    && DistinctImages(u.previous.output.images) && u.candidate.flag != ""
    && u.previous.output.images == base.db.builds[u.build].output.images && u.candidate.images == RecordImages(now.db, ch)
    && (base.db.builds[u.build].output.flag != "" ==> u.previous.output.flag != "")
    && OwnNames(u.promotion) && u.promotion.challenge == ch && u.promotion.build == u.build && u.promotion.qualifier != ""
    && CutsUndoable(base, now, ch, u.cutovers)
  }

  lemma CutsStayUndoable(base: World, s: World, d: World, ch: ChallengeId, cuts: seq<InstanceCutover>)
    requires IdsIssued(base) && Moves(base, s, d) && CutsUndoable(base, s, ch, cuts)
    ensures CutsUndoable(base, d, ch, cuts)
  {
    forall cut, j, c | cut in cuts && j in d.db.instances && c in d.db.instances[j].runtime.containers && c in cut.candidate.containers
      ensures j == cut.instance
    {
      assert d.db.instances[j].runtime == s.db.instances[j].runtime;
    }
  }

  /** Each stage is the one before it with one more cutover carried out. */
  ghost predicate Climb(stages: seq<World>, cuts: seq<InstanceCutover>) {
    && |stages| == |cuts| + 1
    && (forall k | 0 <= k < |cuts| :: Sound(stages[k]) && Ahead(stages[k], stages[k + 1], cuts[k]))
  }

  lemma ClimbStep(stages: seq<World>, cuts: seq<InstanceCutover>, k: nat, now: World)
    requires Climb(stages, cuts) && 0 < k <= |cuts| && Same(stages[k], now)
    ensures Sound(stages[k - 1]) && Ahead(stages[k - 1], now, cuts[k - 1])
  {
    AheadSame(stages[k - 1], stages[k], now, cuts[k - 1]);
  }

  lemma CutIsUndoable(base: World, now: World, ch: ChallengeId, cuts: seq<InstanceCutover>, cut: InstanceCutover)
    requires CutsUndoable(base, now, ch, cuts) && cut in cuts
    ensures Belongs(base.db, cut.instance, ch) && cut.instance in base.db.instances && cut.old_ == base.db.instances[cut.instance].runtime
    ensures forall c | c in cut.candidate.containers :: c >= base.nextId
    ensures Exclusive(now.db, cut.instance, cut.candidate.containers)
  {
  }

  lemma RollbackMoves(base: World, s: World, d: World, i: InstanceId)
    requires OnlyInstance(s, d, i) && i in base.db.instances
    requires d.db.instances == s.db.instances || (i in d.db.instances && d.db.instances[i].runtime == base.db.instances[i].runtime)
    ensures Moves(base, s, d)
  {
  }

  /** Last made, first undone: each cutover is undone in the world it was made in, where the
      ports it gives back are free again. */
  method RollbackCutovers(m: Manager, cuts: seq<InstanceCutover>, ghost stages: seq<World>, ghost base: World, ghost ch: ChallengeId)
    returns (ok: bool)
    requires |stages| == |cuts| + 1
    requires Sound(base) && Safe(base, m.world, ch) && Undiminished(base, m.world)
    requires CutsUndoable(base, m.world, ch, cuts)
    modifies m
    ensures Safe(base, m.world, ch) && Undiminished(base, m.world) && Moves(base, old(m.world), m.world)
    ensures ok && Climb(stages, cuts) && Same(stages[|cuts|], old(m.world)) ==> Same(stages[0], m.world)
    ensures m.reliable && Calm(base, old(m.world), ch) && Climb(stages, cuts) && Same(stages[|cuts|], old(m.world)) ==> ok && Calm(base, m.world, ch)
    ensures old(m.crashPoints) <= m.crashPoints
    ensures forall d | d in m.crashPoints :: d in old(m.crashPoints) || Safe(base, d, ch)
  {
    hide *;
    ghost var s := m.world;
    ghost var exact := Climb(stages, cuts) && Same(stages[|cuts|], s);
    MovesRefl(base, s);
    SoundIds(base);
    ok := true;
    for k := |cuts| downto 0
      invariant Safe(base, m.world, ch) && Undiminished(base, m.world) && Moves(base, s, m.world)
      invariant CutsUndoable(base, m.world, ch, cuts)
      invariant exact && ok ==> Same(stages[k], m.world)
      invariant m.reliable && Calm(base, s, ch) && exact ==> ok && Calm(base, m.world, ch)
      invariant old(m.crashPoints) <= m.crashPoints
      invariant forall d | d in m.crashPoints :: d in old(m.crashPoints) || Safe(base, d, ch)
    {
      ghost var now := m.world;
      if exact && ok { ClimbStep(stages, cuts, k + 1, now); }
      CutIsUndoable(base, now, ch, cuts, cuts[k]);
      var undone := RollbackInstanceCutover(m, cuts[k], stages[k], base, ch);
      RollbackMoves(base, now, m.world, cuts[k].instance);
      MovesTrans(base, s, now, m.world);
      CutsStayUndoable(base, now, m.world, ch, cuts);
      ok := ok && undone;
    }
  }

  lemma MovesRefl(base: World, s: World)
    ensures Moves(base, s, s)
  {
  }

  lemma SoundIds(s: World)
    requires Sound(s)
    ensures IdsIssued(s)
  {
  }

  /** What an update did since `t.pre`, up to `now`. */
  ghost predicate Carried(t: Trail, u: BuildUpdate, now: World) {
    && Climb(t.stages, u.cutovers) && Same(t.stages[|u.cutovers|], now)
    && Promoted(t.pre, t.stages[0], u)
  }

  /** The staged build is in place, and its output may be in the build row already. */
  ghost predicate Promoted(pre: World, d: World, u: BuildUpdate) {
    && Unused(pre, u.qualifier)
    && u.promotion.challenge == u.challenge && u.promotion.build == u.build
    && u.promotion.hosts == u.hosts && u.promotion.qualifier == u.qualifier
    && Touched(pre, d, u.promotion)
    && Constraints(pre.db)
    && RowOnly(pre.db, d.db, u.build)
    && u.previous == pre.db.builds[u.build]
    && pre.nextId <= d.nextId
    && pre.running <= d.running
    && d == pre.(db := d.db, tags := d.tags, artifacts := d.artifacts, running := d.running, picked := d.picked, nextId := d.nextId)
  }

  /** What an update did stays undoable while instances only move back or further on. */
  lemma StaysUndoable(base: World, s: World, d: World, ch: ChallengeId, u: BuildUpdate)
    requires IdsIssued(base) && Moves(base, s, d) && Undoable(base, s, ch, u)
    ensures Undoable(base, d, ch, u)
  {
    hide CutsUndoable, DistinctImages, OwnNames;
    CutsStayUndoable(base, s, d, ch, u.cutovers);
  }

  lemma CarriedSame(t: Trail, u: BuildUpdate, now: World, d: World)
    requires Carried(t, u, now) && Same(now, d)
    ensures Carried(t, u, d)
  {
    hide Climb, Promoted;
    CarriedParts(t, u, now);
    SameTrans(t.stages[|u.cutovers|], now, d);
  }

  /** Puts the build row back: its output first, then when it was last solved. */
  method RestoreBuildRecord(m: Manager, u: BuildUpdate, ghost pre: Db, ghost base: World, ghost ch: ChallengeId) returns (ok: bool)
    requires Safe(base, m.world, ch) && u.build in base.db.builds && base.db.builds[u.build].challenge == ch
    requires DistinctImages(u.previous.output.images) && u.previous.output.images == base.db.builds[u.build].output.images
    requires base.db.builds[u.build].output.flag != "" ==> u.previous.output.flag != ""
    modifies m
    ensures Safe(base, m.world, ch) && (Undiminished(base, old(m.world)) ==> Undiminished(base, m.world))
    ensures Moves(base, old(m.world), m.world) && (Calm(base, old(m.world), ch) ==> Calm(base, m.world, ch))
    ensures RowOnly(pre, old(m.world.db), u.build) && u.previous == pre.builds[u.build] ==>
      && (ok ==> m.world == old(m.world).(db := pre))
      && (m.reliable && Constraints(pre) ==> ok)
    ensures old(m.crashPoints) <= m.crashPoints
    ensures forall d | d in m.crashPoints :: d in old(m.crashPoints) || Safe(base, d, ch)
  {
    hide *;
    ghost var s := m.world;
    MovesRefl(base, s);
    SafeHasBuild(base, s, ch, u.build);
    SafeRow(base, s, ch, u.build, u.previous.output, 0);
    if RowOnly(pre, s.db, u.build) { RowOnlyWithOutput(pre, s.db, u.build, u.previous.output, 0); PreviousRow(pre, s.db, u); }
    ok := FinalizeBuild(m, u.build, u.previous.output);
    if !ok {
      return;
    }
    ghost var mid := m.world;
    SafeHasBuild(base, mid, ch, u.build);
    SafeRow(base, mid, ch, u.build, u.previous.output, u.previous.lastSolved);
    WithOutputTwice(s.db, u.build, u.previous.output, 0, u.previous.lastSolved);
    if RowOnly(pre, s.db, u.build) { RowOnlyWithOutput(pre, s.db, u.build, u.previous.output, u.previous.lastSolved); PreviousRow(pre, s.db, u); }
    ok := m.Commit(WithOutput(m.world.db, u.build, u.previous.output, u.previous.lastSolved));
    if ok { MovesTrans(base, s, mid, m.world); }
  }

  lemma PreviousRow(pre: Db, d: Db, u: BuildUpdate)
    requires RowOnly(pre, d, u.build)
    ensures u.build in pre.builds
    ensures u.previous == pre.builds[u.build] ==> u.previous.output == pre.builds[u.build].output && u.previous.lastSolved == pre.builds[u.build].lastSolved
  {
  }

  /**
   Takes an update back in the reverse order of its steps, going on past errors: cutovers,
   names, the build record, the staged names.
   */
  method RollbackBuildUpdate(m: Manager, u: BuildUpdate, ghost t: Trail, ghost base: World, ghost ch: ChallengeId) returns (ok: bool)
    requires |t.stages| == |u.cutovers| + 1
    requires Sound(base) && Safe(base, m.world, ch) && Undiminished(base, m.world) && Undoable(base, m.world, ch, u)
    modifies m
    ensures Safe(base, m.world, ch) && Undiminished(base, m.world) && Moves(base, old(m.world), m.world)
    ensures ok && Carried(t, u, old(m.world)) ==> Same(t.pre, m.world)
    ensures m.reliable && Calm(base, old(m.world), ch) && Carried(t, u, old(m.world)) ==> ok && Calm(base, m.world, ch)
    ensures old(m.crashPoints) <= m.crashPoints
    ensures forall d | d in m.crashPoints :: d in old(m.crashPoints) || Safe(base, d, ch)
  {
    hide *;
    ghost var s := m.world;
    ghost var exact := Carried(t, u, s);
    UndoableParts(base, s, ch, u);
    if exact { CarriedParts(t, u, s); }
    ok := RollbackCutovers(m, u.cutovers, t.stages, base, ch);
    ghost var s1 := m.world;
    if exact && ok { PromotedSame(t.pre, t.stages[0], s1, u); }
    ghost var exact1 := exact && ok;

    SafeTagsOnly(base, s1, ch, u.build);
    if exact1 { PromotedParts(t.pre, s1, u); }
    var unpublished := RollbackStagedBuild(m, u.promotion, t.pre);
    ghost var s2 := m.world;
    MovesTrans(base, s, s1, s2);
    ghost var exact2 := exact1 && unpublished;
    if exact2 { Unpublished(t.pre, s1, s2, u); }

    if exact1 { TagsOnlyParts(s1, s2, ch, u.build); }
    var restored := RestoreBuildRecord(m, u, t.pre.db, base, ch);
    ghost var s4 := m.world;
    MovesTrans(base, s, s2, s4);
    ghost var exact4 := exact2 && restored;
    if exact4 { RowRestored(t.pre, s2, s4, u); }

    SafeTagsOnly(base, s4, ch, u.build);
    var discarded := DiscardStagedBuild(m, u.challenge, u.build, u.hosts, u.qualifier, t.pre);
    MovesTrans(base, s, s4, m.world);
    ok := ok && unpublished && restored && discarded;
    if exact4 && discarded { NamesRestored(t.pre, s4, m.world); }
  }

  lemma UndoableParts(base: World, now: World, ch: ChallengeId, u: BuildUpdate)
    requires Undoable(base, now, ch, u)
    ensures CutsUndoable(base, now, ch, u.cutovers) && OwnNames(u.promotion)
    ensures u.challenge == ch && u.promotion.challenge == ch && u.promotion.build == u.build && u.promotion.qualifier != ""
    ensures u.build in base.db.builds && base.db.builds[u.build].challenge == ch && DistinctImages(u.previous.output.images)
    ensures u.candidate.flag != "" && (base.db.builds[u.build].output.flag != "" ==> u.previous.output.flag != "")
    ensures u.previous.output.images == base.db.builds[u.build].output.images && u.candidate.images == RecordImages(now.db, ch)
  {
  }

  lemma CarriedParts(t: Trail, u: BuildUpdate, now: World)
    requires Carried(t, u, now)
    ensures Climb(t.stages, u.cutovers) && Same(t.stages[|u.cutovers|], now) && Promoted(t.pre, t.stages[0], u)
  {
  }

  lemma PromotedSame(pre: World, d: World, now: World, u: BuildUpdate)
    requires Promoted(pre, d, u) && Same(d, now)
    ensures Promoted(pre, now, u)
  {
    hide Touched, RowOnly, Unused, Constraints;
    TouchedNames(pre, d, now, u.promotion);
  }

  lemma TouchedNames(pre: World, d: World, now: World, p: StagedBuildPromotion)
    requires Touched(pre, d, p) && now.tags == d.tags && now.artifacts == d.artifacts
    ensures Touched(pre, now, p)
  {
    hide TagsTouched, ArtifactsTouched;
  }

  lemma PromotedParts(pre: World, d: World, u: BuildUpdate)
    requires Promoted(pre, d, u)
    ensures Unused(pre, u.qualifier) && u.promotion.qualifier == u.qualifier && u.promotion.hosts == u.hosts && Touched(pre, d, u.promotion)
    ensures Constraints(pre.db) && RowOnly(pre.db, d.db, u.build) && u.build in pre.db.builds && u.previous == pre.db.builds[u.build]
  {
  }

  /** `d` is `pre` but for the row of the build and staged names. */
  ghost predicate OnlyRowAndNames(pre: World, d: World, u: BuildUpdate) {
    && StagedOnly(pre, d, u.challenge, u.build, u.hosts, u.qualifier)
    && pre.nextId <= d.nextId && pre.running <= d.running
    && d == pre.(db := d.db, tags := d.tags, artifacts := d.artifacts, running := d.running, picked := d.picked, nextId := d.nextId)
  }

  lemma Unpublished(pre: World, s1: World, s2: World, u: BuildUpdate)
    requires Promoted(pre, s1, u) && TagsOnly(s1, s2, u.promotion.challenge, u.promotion.build)
    requires StagedOnly(pre, s2, u.promotion.challenge, u.promotion.build, u.promotion.hosts, u.promotion.qualifier)
    ensures OnlyRowAndNames(pre, s2, u)
  {
    hide StagedOnly, Touched, Unused;
  }

  lemma TagsOnlyParts(s: World, d: World, ch: ChallengeId, b: BuildId)
    requires TagsOnly(s, d, ch, b)
    ensures d.db == s.db
  {
  }

  lemma SafeHasBuild(base: World, s: World, ch: ChallengeId, b: BuildId)
    requires Safe(base, s, ch) && b in base.db.builds
    ensures b in s.db.builds
  {
  }

  lemma WithOutputTwice(db: Db, b: BuildId, output: BuildOutput, first: int, second: int)
    requires b in db.builds
    ensures b in WithOutput(db, b, output, first).builds
    ensures WithOutput(WithOutput(db, b, output, first), b, output, second) == WithOutput(db, b, output, second)
  {
    var row := db.builds[b];
    assert db.builds[b := row.(output := output, lastSolved := first)][b := row.(output := output, lastSolved := second)]
        == db.builds[b := row.(output := output, lastSolved := second)];
  }

  lemma RowRestored(pre: World, s2: World, s4: World, u: BuildUpdate)
    requires OnlyRowAndNames(pre, s2, u) && s4 == s2.(db := pre.db)
    ensures s4 == pre.(tags := s4.tags, artifacts := s4.artifacts, running := s4.running, picked := s4.picked, nextId := s4.nextId)
    ensures pre.nextId <= s4.nextId && pre.running <= s4.running
    ensures StagedOnly(pre, s4, u.challenge, u.build, u.hosts, u.qualifier)
  {
    hide Lookup;
  }

  lemma NamesRestored(pre: World, s4: World, d: World)
    requires s4 == pre.(tags := s4.tags, artifacts := s4.artifacts, running := s4.running, picked := s4.picked, nextId := s4.nextId)
    requires pre.nextId <= s4.nextId && pre.running <= s4.running
    requires d == s4.(tags := pre.tags, artifacts := pre.artifacts)
    ensures Same(pre, d)
  {
  }

  // ---------------------------------------------------------------- cut over

  /** The instances in `ids` still run what they ran in `base`. */
  ghost predicate Waiting(base: World, now: World, ids: set<InstanceId>, ch: ChallengeId, b: BuildId) {
    forall i | i in ids ::
      && Belongs(base.db, i, ch) && i in now.db.instances && now.db.instances[i].build == b && base.db.instances[i].build == b
      && now.db.instances[i].runtime == base.db.instances[i].runtime
  }

  /** An instance runs one new container per image of its build, and the names that had host
      ports in `base` have kept them. */
  ghost predicate Renewed(base: World, now: World, i: InstanceId, challenge: ChallengeId, b: BuildId, images: seq<HostImage>) {
    && i in base.db.instances && i in now.db.instances
    && (forall c | c in now.db.instances[i].runtime.containers :: c >= base.nextId && (c in now.containers ==> c in now.running))
    && |now.db.instances[i].runtime.containers| == RuntimeImages(images)
    && Runs(now.tags, now.containers, challenge, b, images, base.db.instances[i].runtime.ports, now.db.instances[i].runtime)
  }

  ghost predicate Replaced(base: World, now: World, ids: set<InstanceId>, challenge: ChallengeId, b: BuildId, images: seq<HostImage>) {
    forall i | i in ids :: Renewed(base, now, i, challenge, b, images)
  }

  lemma RenewedStays(base: World, s: World, d: World, i: InstanceId, challenge: ChallengeId, b: BuildId, images: seq<HostImage>)
    requires Renewed(base, s, i, challenge, b, images) && i in d.db.instances && d.db.instances[i].runtime == s.db.instances[i].runtime
    requires forall c | c in s.db.instances[i].runtime.containers && c in d.containers :: c in s.containers && d.containers[c] == s.containers[c]
    requires forall c | c in s.db.instances[i].runtime.containers && c in d.containers && c in s.running :: c in d.running
    requires forall image | image in images :: var n := TagName(challenge, b, image.host, ""); n in s.tags ==> n in d.tags && d.tags[n] == s.tags[n]
    ensures Renewed(base, d, i, challenge, b, images)
  {
    hide Runs, RuntimeImages;
    RunsStays(s.tags, s.containers, d.tags, d.containers, challenge, b, images, base.db.instances[i].runtime.ports, s.db.instances[i].runtime);
  }

  lemma WaitingStep(base: World, s: World, d: World, ids: set<InstanceId>, ch: ChallengeId, b: BuildId, i: InstanceId)
    requires Waiting(base, s, ids, ch, b) && i in ids
    ensures Belongs(base.db, i, ch) && i in s.db.instances && s.db.instances[i].build == b && i in base.db.instances && base.db.instances[i].build == b
    ensures s.db.instances[i].runtime == base.db.instances[i].runtime
    ensures OnlyInstance(s, d, i) ==> Waiting(base, d, ids - {i}, ch, b)
  {
  }

  lemma ReplacedStep(base: World, s: World, d: World, done: set<InstanceId>, challenge: ChallengeId, b: BuildId, images: seq<HostImage>, cut: InstanceCutover)
    requires IdsIssued(s) && base.nextId <= s.nextId && UniqueContainers(s.db.instances)
    requires Replaced(base, s, done, challenge, b, images) && Ahead(s, d, cut) && cut.instance !in done
    requires cut.instance in base.db.instances && cut.old_ == base.db.instances[cut.instance].runtime
    requires |cut.candidate.containers| == RuntimeImages(images) && Runs(s.tags, d.containers, challenge, b, images, cut.old_.ports, cut.candidate)
    ensures Replaced(base, d, done + {cut.instance}, challenge, b, images)
  {
    hide RuntimeImages, Runs;
    AheadRenews(base, s, d, challenge, b, images, cut);
    forall i | i in done
      ensures Renewed(base, d, i, challenge, b, images)
    {
      assert Renewed(base, s, i, challenge, b, images);
      assert s.db.instances[i].runtime.containers !! cut.old_.containers;
      RenewedStays(base, s, d, i, challenge, b, images);
    }
  }

  lemma AheadRenews(base: World, s: World, d: World, challenge: ChallengeId, b: BuildId, images: seq<HostImage>, cut: InstanceCutover)
    requires base.nextId <= s.nextId && Ahead(s, d, cut)
    requires cut.instance in base.db.instances && cut.old_ == base.db.instances[cut.instance].runtime
    requires |cut.candidate.containers| == RuntimeImages(images) && Runs(s.tags, d.containers, challenge, b, images, cut.old_.ports, cut.candidate)
    ensures Renewed(base, d, cut.instance, challenge, b, images)
  {
    hide RuntimeImages, Runs;
    assert d.db.instances[cut.instance].runtime == cut.candidate;
    assert d.tags == s.tags;
  }

  lemma CutsUndoableStep(base: World, s: World, d: World, ch: ChallengeId, cuts: seq<InstanceCutover>, cut: InstanceCutover)
    requires IdsIssued(base) && IdsIssued(s) && base.nextId <= s.nextId && UniqueContainers(s.db.instances)
    requires CutsUndoable(base, s, ch, cuts) && Ahead(s, d, cut)
    requires Belongs(base.db, cut.instance, ch) && s.db.instances[cut.instance].runtime == base.db.instances[cut.instance].runtime
    ensures CutsUndoable(base, d, ch, cuts + [cut])
  {
    AheadMoves(base, s, d, ch, cut);
    CutsStayUndoable(base, s, d, ch, cuts);
    CutExclusive(s, d, cut);
    forall x | x in cuts + [cut]
      ensures x in cuts || x == cut
    {
    }
  }

  lemma CutExclusive(s: World, d: World, cut: InstanceCutover)
    requires IdsIssued(s) && Ahead(s, d, cut)
    ensures Exclusive(d.db, cut.instance, cut.candidate.containers)
  {
  }

  lemma ClimbOn(stages: seq<World>, cuts: seq<InstanceCutover>, now: World, cut: InstanceCutover)
    requires Climb(stages, cuts) && Sound(stages[|cuts|]) && Ahead(stages[|cuts|], now, cut)
    ensures Climb(stages + [now], cuts + [cut])
  {
    hide Sound, Ahead;
    var longer, more := stages + [now], cuts + [cut];
    forall k | 0 <= k < |more|
      ensures Sound(longer[k]) && Ahead(longer[k], longer[k + 1], more[k])
    {
      if k < |cuts| {
        assert longer[k] == stages[k] && longer[k + 1] == stages[k + 1] && more[k] == cuts[k];
      }
    }
  }

  lemma CarriedNow(pre: World, stages: seq<World>, u: BuildUpdate, u0: BuildUpdate, now: World)
    requires Climb(stages, u.cutovers) && u == u0.(cutovers := u.cutovers)
    ensures Promoted(pre, stages[0], u0) && Same(stages[|u.cutovers|], now) ==> Carried(Trail(pre, stages), u, now)
  {
    hide Climb, Same, Touched, Unused, RowOnly;
  }

  lemma SafeIds(base: World, s: World, ch: ChallengeId)
    requires Safe(base, s, ch)
    ensures base.nextId <= s.nextId
  {
    hide Sound, WithinTables;
  }

  lemma ReplacedNone(base: World, now: World, challenge: ChallengeId, b: BuildId, images: seq<HostImage>)
    ensures Replaced(base, now, {}, challenge, b, images)
  {
  }

  /** Between two cutovers of `u`, which began in `s`. */
  ghost predicate Underway(base: World, s: World, now: World, ch: ChallengeId, u0: BuildUpdate, u: BuildUpdate, t: Trail) {
    && u == u0.(cutovers := u.cutovers)
    && Safe(base, now, ch) && Tidy(base, now) && Undiminished(base, now)
    && Moves(base, s, now) && Elsewhere(s, now, ch, u.build)
    && now.tags == s.tags && now.artifacts == s.artifacts && now.db.builds == s.db.builds
    && Undoable(base, now, ch, u)
    && Climb(t.stages, u.cutovers) && t.stages[|u.cutovers|] == now && t.stages[0] == s
    && (Calm(base, s, ch) ==> Calm(base, now, ch))
  }

  lemma UnderwayFirst(base: World, s: World, ch: ChallengeId, u: BuildUpdate, pre: World)
    requires Safe(base, s, ch) && Tidy(base, s) && Undiminished(base, s) && Undoable(base, s, ch, u) && u.cutovers == []
    ensures Underway(base, s, s, ch, u, u, Trail(pre, [s]))
  {
    hide Safe, Tidy, Undiminished, Undoable, Calm;
  }

  lemma UnderwayParts(base: World, s: World, now: World, ch: ChallengeId, u0: BuildUpdate, u: BuildUpdate, t: Trail)
    requires Underway(base, s, now, ch, u0, u, t)
    ensures u == u0.(cutovers := u.cutovers) && |t.stages| == |u.cutovers| + 1
    ensures Safe(base, now, ch) && Tidy(base, now) && Undiminished(base, now) && Undoable(base, now, ch, u)
    ensures Moves(base, s, now) && Elsewhere(s, now, ch, u.build) && now.tags == s.tags && now.artifacts == s.artifacts && now.db.builds == s.db.builds
    ensures Sound(now) && IdsIssued(now) && base.nextId <= now.nextId && UniqueContainers(now.db.instances)
    ensures Calm(base, s, ch) ==> Calm(base, now, ch)
    ensures Promoted(t.pre, s, u0) ==> Carried(t, u, now)
  {
    hide Within, Tidy, Undiminished, Undoable, Climb, Moves, Elsewhere, Promoted, Constraints, OwnedOrRetired, BuildsDistinct, FitsRuntime;
    SafeIds(base, now, ch);
    ConstraintsGiveUniqueContainers(now.db);
    ClimbLength(t.stages, u.cutovers);
    CarriedNow(t.pre, t.stages, u, u0, now);
    assert Same(now, now);
  }

  /** One more cutover. */
  lemma UnderwayNext(base: World, s: World, now: World, next: World, ch: ChallengeId, u0: BuildUpdate, u: BuildUpdate, t: Trail, cut: InstanceCutover)
    requires Sound(base) && Underway(base, s, now, ch, u0, u, t) && Ahead(now, next, cut)
    requires Safe(base, next, ch) && Tidy(base, next) && Keeps(now.containers, next.containers) && (Calm(base, now, ch) ==> Calm(base, next, ch))
    requires Belongs(base.db, cut.instance, ch) && cut.instance in now.db.instances && now.db.instances[cut.instance].build == u.build
    requires now.db.instances[cut.instance].runtime == base.db.instances[cut.instance].runtime
    ensures Underway(base, s, next, ch, u0, u.(cutovers := u.cutovers + [cut]), Trail(t.pre, t.stages + [next]))
  {
    hide Sound, Safe, Tidy, Climb, CutsUndoable, Belongs, Calm, Moves, Elsewhere, DistinctImages, OwnNames;
    UnderwayParts(base, s, now, ch, u0, u, t);
    SoundIds(base);
    AheadMoves(base, now, next, ch, cut);
    MovesTrans(base, s, now, next);
    ElsewhereTrans(s, now, next, ch, u.build);
    CutsUndoableStep(base, now, next, ch, u.cutovers, cut);
    ClimbOn(t.stages, u.cutovers, next, cut);
    ClimbLength(t.stages, u.cutovers);
  }

  lemma ClimbLength(stages: seq<World>, cuts: seq<InstanceCutover>)
    requires Climb(stages, cuts)
    ensures |stages| == |cuts| + 1
  {
  }

  /** An abandoned cutover, or none: the way back is still open. */
  lemma UnderwayAbandoned(base: World, s: World, now: World, next: World, ch: ChallengeId, u0: BuildUpdate, u: BuildUpdate, t: Trail, i: InstanceId, hit: set<ContainerId>)
    requires Sound(base) && Underway(base, s, now, ch, u0, u, t)
    requires OnlyInstance(now, next, i) && Keeps(now.containers, next.containers) && next.db.instances == now.db.instances
    requires i in base.db.instances && hit <= base.db.instances[i].runtime.containers && base.db.instances[i].build == u.build
    ensures Undoable(base, next, ch, u) && Undiminished(base, next) && Moves(base, s, next)
    ensures |HaltedTrail(t, hit).stages| == |u.cutovers| + 1 && HaltedTrail(t, hit).pre == Halted(t.pre, hit) && HeldBy(base, u.build, hit)
    ensures Same(Halted(now, hit), next) && Promoted(t.pre, s, u0) ==> Carried(HaltedTrail(t, hit), u, next)
  {
    hide Sound, Safe, Tidy, Climb, CutsUndoable, Calm, Elsewhere, DistinctImages, OwnNames, Promoted, Carried, HaltedTrail, ImagesOf;
    UnderwayParts(base, s, now, ch, u0, u, t);
    SoundIds(base);
    CutsStayUndoable(base, now, next, ch, u.cutovers);
    HaltedTrailParts(t, hit);
    OldAreNotCandidates(base, now, ch, u.cutovers, i, hit);
    if Same(Halted(now, hit), next) && Promoted(t.pre, s, u0) {
      CarriedHalted(t, u, now, hit);
      CarriedSame(HaltedTrail(t, hit), u, Halted(now, hit), next);
    }
  }

  lemma HaltedTrailParts(t: Trail, hit: set<ContainerId>)
    ensures HaltedTrail(t, hit).pre == Halted(t.pre, hit) && |HaltedTrail(t, hit).stages| == |t.stages|
  {
  }

  lemma OldAreNotCandidates(base: World, now: World, ch: ChallengeId, cuts: seq<InstanceCutover>, i: InstanceId, hit: set<ContainerId>)
    requires IdsIssued(base) && CutsUndoable(base, now, ch, cuts)
    requires i in base.db.instances && hit <= base.db.instances[i].runtime.containers
    ensures forall cut | cut in cuts :: hit !! cut.candidate.containers
  {
  }

  lemma AbandonedNothing(now: World, i: InstanceId)
    ensures Same(Halted(now, {}), now) && OnlyInstance(now, now, i) && Keeps(now.containers, now.containers)
  {
    NothingHalted(now);
  }

  /** How far a failed update of `b` has been undone. */
  ghost predicate TakenBack(base: World, pre: World, d: World, b: BuildId, exactly: bool) {
    AsBefore(pre, d) && HeldBy(base, b, pre.running - d.running) && (exactly ==> Same(pre, d))
  }

  lemma SameIsTakenBack(base: World, pre: World, d: World, b: BuildId)
    requires Same(pre, d)
    ensures TakenBack(base, pre, d, b, true)
  {
    SameAsBefore(pre, d);
  }

  lemma HaltedIsTakenBack(base: World, pre: World, d: World, b: BuildId, hit: set<ContainerId>)
    requires Same(Halted(pre, hit), d) && |hit| <= 1 && HeldBy(base, b, hit)
    ensures TakenBack(base, pre, d, b, hit == {})
  {
    HaltedAsBefore(pre, d, hit);
  }

  /** Every instance in `ids` has its cutover. */
  ghost predicate CutsFor(ids: set<InstanceId>, cuts: seq<InstanceCutover>) {
    forall i | i in ids :: exists cut :: cut in cuts && cut.instance == i
  }

  lemma CutsForNone(cuts: seq<InstanceCutover>)
    ensures CutsFor({}, cuts)
  {
  }

  lemma CutsForOne(ids: set<InstanceId>, cuts: seq<InstanceCutover>, cut: InstanceCutover)
    requires CutsFor(ids, cuts)
    ensures CutsFor(ids + {cut.instance}, cuts + [cut])
  {
    forall i | i in ids + {cut.instance}
      ensures exists x :: x in cuts + [cut] && x.instance == i
    {
      if i == cut.instance {
        assert cut in cuts + [cut];
      } else {
        var x :| x in cuts && x.instance == i;
        assert x in cuts + [cut];
      }
    }
  }

  // ------------------------------------------------ a stop that only seemed to fail

  ghost function HaltedTrail(t: Trail, hit: set<ContainerId>): Trail {
    Trail(Halted(t.pre, hit), seq(|t.stages|, k requires 0 <= k < |t.stages| => Halted(t.stages[k], hit)))
  }

  lemma SameHalted(s: World, d: World, hit: set<ContainerId>)
    requires Same(s, d)
    ensures Same(Halted(s, hit), Halted(d, hit))
  {
  }

  lemma AheadHalted(s: World, d: World, cut: InstanceCutover, hit: set<ContainerId>)
    requires Sound(s) && Ahead(s, d, cut) && hit !! cut.candidate.containers
    ensures Sound(Halted(s, hit)) && Ahead(Halted(s, hit), Halted(d, hit), cut)
  {
    hide Sound;
    SoundRun(s, Halted(s, hit));
  }

  lemma PromotedHalted(pre: World, d: World, u: BuildUpdate, hit: set<ContainerId>)
    requires Promoted(pre, d, u)
    ensures Promoted(Halted(pre, hit), Halted(d, hit), u)
  {
    hide TagsTouched, ArtifactsTouched, Constraints, RowOnly;
    assert Unused(Halted(pre, hit), u.qualifier);
  }

  /** Where one container is down from the start, what was carried out was carried out too. */
  lemma CarriedHalted(t: Trail, u: BuildUpdate, now: World, hit: set<ContainerId>)
    requires Carried(t, u, now) && forall cut | cut in u.cutovers :: hit !! cut.candidate.containers
    ensures Carried(HaltedTrail(t, hit), u, Halted(now, hit))
    ensures HaltedTrail(t, hit).pre == Halted(t.pre, hit) && |HaltedTrail(t, hit).stages| == |t.stages|
  {
    hide Sound, Ahead, Promoted, Same;
    var h := HaltedTrail(t, hit);
    PromotedHalted(t.pre, t.stages[0], u, hit);
    SameHalted(t.stages[|u.cutovers|], now, hit);
    forall k | 0 <= k < |u.cutovers|
      ensures Sound(h.stages[k]) && Ahead(h.stages[k], h.stages[k + 1], u.cutovers[k])
    {
      AheadHalted(t.stages[k], t.stages[k + 1], u.cutovers[k], hit);
    }
  }

  /** All of `hit` belonged to instances of `b`. */
  ghost predicate HeldBy(base: World, b: BuildId, hit: set<ContainerId>) {
    forall c | c in hit :: exists i :: i in base.db.instances && base.db.instances[i].build == b && c in base.db.instances[i].runtime.containers
  }

  lemma TakenBackExactly(base: World, pre: World, d: World, b: BuildId, exactly: bool)
    ensures TakenBack(base, pre, d, b, true) ==> TakenBack(base, pre, d, b, exactly)
  {
  }

  /** Moves every instance of a finalized build over, or takes the whole update back. */
  method CutOverInstances(m: Manager, u0: BuildUpdate, known: set<string>, ghost pre: World, ghost g: string, ghost base: World, ghost ch: ChallengeId)
    returns (r: BuildUpdateResult, ghost t: Trail, ghost refused: bool)
    requires m.portLow == 0 || m.portLow <= m.portHigh
    requires Sound(base) && Safe(base, m.world, ch) && Tidy(base, m.world) && Undiminished(base, m.world)
    requires u0.cutovers == [] && Undoable(base, m.world, ch, u0)
    requires u0.previous.challenge == ch && DistinctImages(u0.candidate.images)
    requires Waiting(base, m.world, InstancesOf(m.world.db, u0.build), ch, u0.build)
    requires TagsOfGeneration(m.world.tags, ch, u0.build, u0.candidate.images, g)
    modifies m
    ensures Safe(base, m.world, ch) && Undiminished(base, m.world) && Moves(base, old(m.world), m.world)
    ensures r == Undone(true) && Promoted(pre, old(m.world), u0) ==> TakenBack(base, pre, m.world, u0.build, m.reliable)
    ensures m.reliable && Calm(base, old(m.world), ch) && Promoted(pre, old(m.world), u0) ==> r != Undone(false) && Calm(base, m.world, ch)
    ensures r.Updated? ==>
      && r.clean && t.pre == pre && Underway(base, old(m.world), m.world, ch, u0, r.update, t)
      && Replaced(base, m.world, InstancesOf(old(m.world.db), u0.build), ch, u0.build, u0.candidate.images)
      && CutsFor(InstancesOf(old(m.world.db), u0.build), r.update.cutovers)
    ensures m.reliable && !refused ==> r.Updated?
    ensures r.Updated? ==> !refused
    ensures
      var ids := InstancesOf(old(m.world.db), u0.build);
      var able := Movable(base, old(m.world), m.portLow, m.portHigh, u0.candidate.images, known, ids) && Tagged(old(m.world.tags), ch, u0.build, u0.candidate.images);
      m.reliable && m.fortunate && able ==> !refused && MovesOn(base, old(m.world), m.world, m.portLow, m.portHigh, u0.candidate.images, known, ch, u0.build, ids, {})
    ensures old(m.crashPoints) <= m.crashPoints
    ensures forall d | d in m.crashPoints :: d in old(m.crashPoints) || Safe(base, d, ch)
  {
    hide *;
    ghost var s := m.world;
    refused := false;
    var u := u0;
    t := Trail(pre, [s]);
    UnderwayFirst(base, s, ch, u, pre);
    UnderwayParts(base, s, s, ch, u0, u, t);
    ReplacedNone(base, s, ch, u.build, u.candidate.images);
    var read := m.Query();
    if !read {
      var undone := RollbackBuildUpdate(m, u, t, base, ch);
      if undone && Promoted(pre, s, u0) { SameIsTakenBack(base, pre, m.world, u0.build); }
      TakenBackExactly(base, pre, m.world, u0.build, m.reliable);
      return Undone(undone), t, refused;
    }
    var todo := InstancesOf(m.world.db, u.build);
    ghost var all := todo;
    ghost var low, high, images := m.portLow, m.portHigh, u.candidate.images;
    ghost var able := m.reliable && m.fortunate && Movable(base, s, low, high, images, known, all) && Tagged(s.tags, ch, u.build, images);
    if able { MovesFirst(base, s, low, high, images, known, ch, u.build, all); }
    assert all - todo == {};
    CutsForNone(u.cutovers);
    while todo != {}
      invariant todo <= all && t.pre == pre && CutsFor(all - todo, u.cutovers)
      invariant Underway(base, s, m.world, ch, u0, u, t)
      invariant Waiting(base, m.world, todo, ch, u.build)
      invariant Replaced(base, m.world, all - todo, ch, u.build, u.candidate.images)
      invariant !refused && (able ==> MovesOn(base, s, m.world, low, high, images, known, ch, u.build, all, todo))
      invariant old(m.crashPoints) <= m.crashPoints
      invariant forall d | d in m.crashPoints :: d in old(m.crashPoints) || Safe(base, d, ch)
    {
      var i :| i in todo;
      ghost var now := m.world;
      UnderwayParts(base, s, now, ch, u0, u, t);
      WaitingStep(base, now, now, todo, ch, u.build, i);
      AbandonedNothing(now, i);
      var r0 := Abandoned(true);
      ghost var hit: set<ContainerId> := {};
      UndoableParts(base, now, ch, u);
      if able { CanMoveNext(base, s, now, low, high, images, known, ch, u0, u, t, all, todo, i); }
      read := m.Query();
      if read {
        r0, hit := PrepareInstanceCutover(m, i, u.previous.(output := u.candidate), u.build, known, g, base, ch);
      }
      ghost var next := m.world;
      if r0.Abandoned? {
        UnderwayAbandoned(base, s, now, next, ch, u0, u, t, i, hit);
        var undone := RollbackBuildUpdate(m, u, HaltedTrail(t, hit), base, ch);
        MovesTrans(base, s, next, m.world);
        if r0.clean && undone && Promoted(pre, s, u0) { HaltedIsTakenBack(base, pre, m.world, u0.build, hit); }
        TakenBackExactly(base, pre, m.world, u0.build, m.reliable);
        return Undone(r0.clean && undone), t, read;
      }
      var cut := r0.cutover;
      AheadParts(now, next, cut);
      UnderwayNext(base, s, now, next, ch, u0, u, t, cut);
      OneMoreReplaced(base, now, next, ch, u.build, images, all, todo, u.cutovers, cut);
      if able { HasMoved(base, s, now, next, low, high, images, known, ch, u.build, all, todo, cut); }
      u := u.(cutovers := u.cutovers + [cut]);
      t := Trail(pre, t.stages + [next]);
      todo := todo - {i};
    }
    assert all - {} == all;
    UnderwayParts(base, s, m.world, ch, u0, u, t);
    r := Updated(u, true);
  }

  lemma OneMoreReplaced(base: World, now: World, next: World, ch: ChallengeId, b: BuildId, images: seq<HostImage>, all: set<InstanceId>, todo: set<InstanceId>,
                        cuts: seq<InstanceCutover>, cut: InstanceCutover)
    requires IdsIssued(now) && base.nextId <= now.nextId && UniqueContainers(now.db.instances)
    requires Waiting(base, now, todo, ch, b) && cut.instance in todo && todo <= all && OnlyInstance(now, next, cut.instance)
    requires Replaced(base, now, all - todo, ch, b, images) && Ahead(now, next, cut) && CutsFor(all - todo, cuts)
    requires cut.old_ == base.db.instances[cut.instance].runtime
    requires |cut.candidate.containers| == RuntimeImages(images) && Runs(now.tags, next.containers, ch, b, images, cut.old_.ports, cut.candidate)
    ensures Waiting(base, next, todo - {cut.instance}, ch, b) && Replaced(base, next, all - (todo - {cut.instance}), ch, b, images)
    ensures CutsFor(all - (todo - {cut.instance}), cuts + [cut])
  {
    hide *;
    WaitingStep(base, now, next, todo, ch, b, cut.instance);
    ReplacedStep(base, now, next, all - todo, ch, b, images, cut);
    CutsForOne(all - todo, cuts, cut);
    assert all - (todo - {cut.instance}) == (all - todo) + {cut.instance};
  }

  lemma CanMoveNext(base: World, s: World, now: World, low: nat, high: nat, images: seq<HostImage>, known: set<string>, ch: ChallengeId,
                    u0: BuildUpdate, u: BuildUpdate, t: Trail, all: set<InstanceId>, todo: set<InstanceId>, i: InstanceId)
    requires MovesOn(base, s, now, low, high, images, known, ch, u.build, all, todo) && i in todo && Underway(base, s, now, ch, u0, u, t)
    requires i in now.db.instances && i in base.db.instances && now.db.instances[i].runtime == base.db.instances[i].runtime
    ensures Quiet(now) && CanCutOver(now, low, high, i, ch, u.build, images, known)
  {
    hide *;
    UnderwayParts(base, s, now, ch, u0, u, t);
    MovesParts(base, s, now, low, high, images, known, ch, u.build, all, todo);
    MovesOne(base, now, low, high, images, known, todo, i, ch, u.build);
  }

  lemma MovesParts(base: World, s: World, now: World, low: nat, high: nat, images: seq<HostImage>, known: set<string>, ch: ChallengeId, b: BuildId,
                   all: set<InstanceId>, todo: set<InstanceId>)
    requires MovesOn(base, s, now, low, high, images, known, ch, b, all, todo)
    ensures Movable(base, now, low, high, images, known, todo) && Tagged(now.tags, ch, b, images) && Quiet(now)
    ensures |SparePorts(s.db, low, high)| <= |SparePorts(now.db, low, high)| + |Newcomers(base.db, images, all - todo)|
  {
  }

  lemma HasMoved(base: World, s: World, now: World, next: World, low: nat, high: nat, images: seq<HostImage>, known: set<string>, ch: ChallengeId, b: BuildId,
                 all: set<InstanceId>, todo: set<InstanceId>, cut: InstanceCutover)
    requires MovesOn(base, s, now, low, high, images, known, ch, b, all, todo) && (Quiet(now) ==> Quiet(next)) && next.tags == now.tags
    requires cut.instance in todo && todo <= all && Ahead(now, next, cut)
    requires cut.instance in now.db.instances && cut.instance in base.db.instances
    requires now.db.instances[cut.instance].runtime == base.db.instances[cut.instance].runtime
    requires Runs(now.tags, next.containers, ch, b, images, cut.old_.ports, cut.candidate)
    ensures MovesOn(base, s, next, low, high, images, known, ch, b, all, todo - {cut.instance})
  {
    hide MovesOn, Quiet, Ahead, RunsImages, PublishesNames, KeepsPorts;
    MovesParts(base, s, now, low, high, images, known, ch, b, all, todo);
    MovesNext(base, s, now, next, low, high, images, known, ch, b, all, todo, cut);
  }

  // ------------------------------------------------------------- one build

  /** A random identifier is new: nothing was ever named with it. */
  method NewQualifier(m: Manager) returns (qualifier: Option<string>)
    ensures qualifier.Some? ==> Unused(m.world, qualifier.value)
    ensures m.fortunate ==> qualifier.Some?
  {
    var drawn: string := *;
    if m.fortunate && !Unused(m.world, drawn) {
      drawn := LongerName((set n | n in m.world.tags :: n.qualifier) + (set a | a in m.world.artifacts && !a.Canonical? :: a.qualifier));
    }
    qualifier := if Unused(m.world, drawn) then Some(drawn) else None;
  }

  /** There is always an identifier that is not among finitely many. */
  method LongerName(names: set<string>) returns (name: string)
    ensures name != "" && name !in names
  {
    name := "x";
    var todo := names;
    while todo != {}
      invariant |name| > 0 && forall n | n in names - todo :: |n| < |name|
    {
      var n :| n in todo;
      todo := todo - {n};
      if |n| >= |name| {
        name := n + "x";
      }
    }
  }

  /** Every instance of `b` was renewed since `base`, its images are those of the record, and no
      artifact is left that the build does not have. */
  ghost predicate NewlyRun(base: World, now: World, b: BuildId) {
    && b in now.db.builds
    && (now.db.builds[b].output.hasArtifacts <==> Canonical(b) in now.artifacts)
    && now.db.builds[b].output.images == RecordImages(now.db, now.db.builds[b].challenge)
    && (forall i | i in now.db.instances && now.db.instances[i].build == b ::
          Renewed(base, now, i, now.db.builds[b].challenge, b, now.db.builds[b].output.images))
  }

  lemma BuiltReach(base: World, s: World, ch: ChallengeId, b: BuildId, hosts: seq<string>, qualifier: string)
    requires IdsIssued(s)
    ensures forall d :: Built(s, d, ch, b, hosts, qualifier) ==> Moves(base, s, d) && Elsewhere(s, d, ch, b) && d.db == s.db.(retired := d.db.retired)
  {
    forall d | Built(s, d, ch, b, hosts, qualifier)
      ensures Moves(base, s, d) && Elsewhere(s, d, ch, b)
    {
      StagedTagsAreOwn(s, d, ch, b, hosts, qualifier);
    }
  }

  lemma BuiltParts(s: World, d: World, ch: ChallengeId, b: BuildId, hosts: seq<string>, qualifier: string)
    requires Built(s, d, ch, b, hosts, qualifier)
    ensures StagedOnly(s, d, ch, b, hosts, qualifier)
  {
  }

  /** A build that failed and was discarded left nothing behind. */
  lemma DiscardedCleanly(s: World, w: World, d: World, ch: ChallengeId, b: BuildId, hosts: seq<string>, qualifier: string)
    requires BuiltCleanly(s, w, ch, b, hosts, qualifier)
    requires d == w.(tags := s.tags, artifacts := s.artifacts)
    ensures Same(s, d)
  {
  }

  lemma DiscardedBack(base: World, s: World, w: World, d: World, ch: ChallengeId, b: BuildId, hosts: seq<string>, qualifier: string, exactly: bool)
    requires BuiltCleanly(s, w, ch, b, hosts, qualifier)
    requires d == w.(tags := s.tags, artifacts := s.artifacts)
    ensures TakenBack(base, s, d, b, exactly)
  {
    hide *;
    DiscardedCleanly(s, w, d, ch, b, hosts, qualifier);
    SameIsTakenBack(base, s, d, b);
    TakenBackExactly(base, s, d, b, exactly);
  }

  lemma NothingToTakeBack(base: World, s: World, b: BuildId, exactly: bool)
    ensures TakenBack(base, s, s, b, exactly)
  {
    SameNow(s);
    SameIsTakenBack(base, s, s, b);
  }

  lemma PromotedFrom(s: World, w: World, d: World, u: BuildUpdate)
    requires Constraints(s.db) && Unused(s, u.qualifier)
    requires BuiltCleanly(s, w, u.challenge, u.build, u.hosts, u.qualifier)
    requires u.build in s.db.builds && u.previous == s.db.builds[u.build]
    requires u.promotion.challenge == u.challenge && u.promotion.build == u.build
    requires u.promotion.hosts == u.hosts && u.promotion.qualifier == u.qualifier
    requires Touched(s, d, u.promotion) && d == w.(tags := d.tags, artifacts := d.artifacts)
    ensures Promoted(s, d, u)
  {
    hide Constraints, StagedOnly, Unused, Touched;
    assert s.db.builds[u.build := s.db.builds[u.build]] == s.db.builds;
  }

  lemma PromotedFinalized(pre: World, d: World, u: BuildUpdate, output: BuildOutput)
    requires Promoted(pre, d, u) && u.build in d.db.builds && DistinctImages(output.images)
    ensures Promoted(pre, d.(db := WithOutput(d.db, u.build, output, 0)), u)
    ensures Constraints(WithOutput(d.db, u.build, output, 0))
  {
    hide Constraints, Unused, Touched, RowOnly;
    TouchedNames(pre, d, d.(db := WithOutput(d.db, u.build, output, 0)), u.promotion);
    RowOnlyWithOutput(pre.db, d.db, u.build, output, 0);
    RowOnlyAgain(pre.db, d.db, u.build, output);
  }

  lemma RowOnlyAgain(pre: Db, d: Db, b: BuildId, output: BuildOutput)
    requires RowOnly(pre, d, b) && b in d.builds
    ensures RowOnly(pre, WithOutput(d, b, output, 0), b)
  {
  }

  lemma PublishedGeneration(staged: map<TagName, Image>, now: map<TagName, Image>, p: StagedBuildPromotion, portMap: map<string, Endpoint>, g: string)
    requires Published(staged, now, p, p.hosts) && AllStaged(staged, p.challenge, p.build, p.hosts, p.qualifier, g)
    ensures TagsOf(now, p.challenge, p.build, ImagesOf(p.hosts, portMap), g)
    ensures TagsOfGeneration(now, p.challenge, p.build, ImagesOf(p.hosts, portMap), g)
  {
    var images := ImagesOf(p.hosts, portMap);
    forall image | image in images
      ensures CanonicalTag(p.challenge, p.build, image.host) in now && now[CanonicalTag(p.challenge, p.build, image.host)].source == g
    {
      var k :| 0 <= k < |images| && images[k] == image;
      var h := p.hosts[k];
      assert h in p.hosts && image.host == h;
      assert Lookup(now, CanonicalTag(p.challenge, p.build, h)) == Lookup(staged, StagedTag(p.challenge, p.build, h, p.qualifier));
    }
  }

  /** Build `b` is as it was in `base`, and every instance of it still runs what it ran. */
  ghost predicate Untouched(base: World, now: World, b: BuildId) {
    && b in base.db.builds && b in now.db.builds && now.db.builds[b].output == base.db.builds[b].output
    && forall i | i in now.db.instances && now.db.instances[i].build == b ::
      i in base.db.instances && now.db.instances[i].runtime == base.db.instances[i].runtime
  }

  lemma UntouchedWaits(base: World, now: World, d: World, ch: ChallengeId, b: BuildId)
    requires Safe(base, now, ch) && Untouched(base, now, b) && ForeignKeys(base.db)
    requires b in base.db.builds && base.db.builds[b].challenge == ch && d.db.instances == now.db.instances
    ensures Waiting(base, d, InstancesOf(d.db, b), ch, b)
  {
    hide Sound, OldOrNew, WithinDocker, OtherTags, Marked;
  }

  lemma RebuiltGeneration(base: World, s: World, now: World, ch: ChallengeId, b: BuildId, output: BuildOutput, g: string)
    requires b in s.db.builds && s.db.builds[b].output == output && s.db.builds[b].challenge == ch && output.source == g
    requires now.db.builds == s.db.builds && now.tags == s.tags && now.artifacts == s.artifacts && Elsewhere(s, now, ch, b)
    requires TagsOf(s.tags, ch, b, output.images, g) && (output.hasArtifacts <==> Canonical(b) in s.artifacts) && output.flag != ""
    requires Replaced(base, now, InstancesOf(s.db, b), ch, b, output.images) && output.images == RecordImages(now.db, ch)
    ensures WhollyOf(now, b, g) && NewlyRun(base, now, b)
  {
    hide RuntimeImages, ContainersOfGeneration, TagsOf, TagsOfGeneration, Runs;
    TagsAreOf(s.tags, ch, b, output.images, g);
    forall i | i in now.db.instances && now.db.instances[i].build == b
      ensures Renewed(base, now, i, ch, b, output.images)
      ensures ContainersOfGeneration(now.containers, now.db.instances[i].runtime.containers, g)
    {
      assert i in InstancesOf(s.db, b);
      RenewedGeneration(base, now, i, ch, b, output.images, g);
    }
  }

  lemma RenewedGeneration(base: World, now: World, i: InstanceId, ch: ChallengeId, b: BuildId, images: seq<HostImage>, g: string)
    requires Renewed(base, now, i, ch, b, images) && TagsOf(now.tags, ch, b, images, g)
    ensures ContainersOfGeneration(now.containers, now.db.instances[i].runtime.containers, g)
  {
    hide RunsImages, ContainersOfGeneration, RuntimeImages, PublishesNames, KeepsPorts;
    assert TagsOfGeneration(now.tags, ch, b, images, g);
    RunsGeneration(now.tags, now.containers, now.db.instances[i].runtime.containers, ch, b, images, g);
  }

  lemma SafeForeign(base: World)
    requires Sound(base)
    ensures ForeignKeys(base.db)
  {
  }

  lemma BuildOfChallenge(base: World, s: World, ch: ChallengeId, b: BuildId)
    requires Safe(base, s, ch) && b in base.db.builds && base.db.builds[b].challenge == ch
    ensures b in s.db.builds && s.db.builds[b].challenge == ch && DistinctImages(s.db.builds[b].output.images)
    ensures base.db.builds[b].output.flag != "" ==> s.db.builds[b].output.flag != ""
  {
    hide Constraints, WithinDocker, OwnedOrRetired, DistinctImages;
  }

  lemma UndoableFirst(base: World, now: World, ch: ChallengeId, u: BuildUpdate)
    requires u.challenge == ch && u.build in base.db.builds && base.db.builds[u.build].challenge == ch
    requires DistinctImages(u.previous.output.images) && OwnNames(u.promotion) && u.candidate.flag != ""
    requires base.db.builds[u.build].output.flag != "" ==> u.previous.output.flag != ""
    requires u.promotion.challenge == ch && u.promotion.build == u.build && u.promotion.qualifier != "" && u.cutovers == []
    requires u.previous.output.images == base.db.builds[u.build].output.images && u.candidate.images == RecordImages(now.db, ch)
    ensures Undoable(base, now, ch, u)
  {
  }

  lemma SameNow(s: World)
    ensures Same(s, s)
  {
  }

  lemma CutOverReady(base: World, d: World, ch: ChallengeId, u: BuildUpdate)
    requires Sound(base) && Safe(base, d, ch) && Undoable(base, d, ch, u) && Untouched(base, d, u.build)
    ensures u.build in d.db.builds && d.db.builds[u.build].challenge == ch
    ensures forall d': World :: d'.db.instances == d.db.instances ==> Waiting(base, d', InstancesOf(d'.db, u.build), ch, u.build)
    ensures u.build in base.db.builds && base.db.builds[u.build].challenge == ch
  {
    hide Sound, Safe, Untouched, Waiting, CutsUndoable;
    SafeForeign(base);
    BuildOfChallenge(base, d, ch, u.build);
    forall d': World | d'.db.instances == d.db.instances
      ensures Waiting(base, d', InstancesOf(d'.db, u.build), ch, u.build)
    {
      UntouchedWaits(base, d, d', ch, u.build);
    }
  }

  lemma UndoableFinalized(base: World, d: World, d': World, ch: ChallengeId, u: BuildUpdate)
    requires Undoable(base, d, ch, u) && u.cutovers == [] && d'.db.challenges == d.db.challenges
    ensures Undoable(base, d', ch, u)
  {
    hide ImagesOf;
  }

  /** Only owned containers run still, and new names have taken one spare port each. */
  ghost predicate Moved(base: World, s: World, now: World, low: nat, high: nat, images: seq<HostImage>, ids: set<InstanceId>) {
    Quiet(now) && |SparePorts(s.db, low, high)| <= |SparePorts(now.db, low, high)| + |Newcomers(base.db, images, ids)|
  }

  lemma InstalledMoved(base: World, d: World, s: World, now: World, low: nat, high: nat, images: seq<HostImage>, known: set<string>, ch: ChallengeId, b: BuildId, ids: set<InstanceId>)
    requires |SparePorts(s.db, low, high)| == |SparePorts(d.db, low, high)|
    ensures MovesOn(base, s, now, low, high, images, known, ch, b, ids, {}) ==> Moved(base, d, now, low, high, images, ids)
  {
    if MovesOn(base, s, now, low, high, images, known, ch, b, ids, {}) {
      MovesParts(base, s, now, low, high, images, known, ch, b, ids, {});
      assert ids - {} == ids;
    }
  }

  lemma AllTaggedImages(tags: map<TagName, Image>, ch: ChallengeId, b: BuildId, images: seq<HostImage>, g: string)
    requires TagsOf(tags, ch, b, images, g)
    ensures Tagged(tags, ch, b, images)
  {
    forall k: nat | Runnable(images, k) ensures TagName(ch, b, images[k].host, "") in tags {
      assert images[k] in images;
    }
  }

  /** The output of a build is always accepted. */
  lemma RowAccepted(s: World, b: BuildId, output: BuildOutput)
    requires Constraints(s.db) && b in s.db.builds && DistinctImages(output.images)
    ensures Constraints(WithOutput(s.db, b, output, 0))
  {
    hide UniquePorts, PortsInRange, UniqueContainers, Recordable;
    var d := WithOutput(s.db, b, output, 0);
    assert forall x | x in d.builds :: BuildKey(d.builds[x]) == BuildKey(s.db.builds[x]) && d.builds[x].challenge == s.db.builds[x].challenge;
  }

  /** Records the output of a promoted build and moves its instances over. */
  method InstallBuild(m: Manager, u: BuildUpdate, known: set<string>, clean: bool, ghost pre: World, ghost g: string, ghost base: World, ghost ch: ChallengeId)
    returns (r: BuildUpdateResult, ghost t: Trail, ghost refused: bool)
    requires m.portLow == 0 || m.portLow <= m.portHigh
    requires Sound(base) && Safe(base, m.world, ch) && Tidy(base, m.world) && Undiminished(base, m.world)
    requires u.cutovers == [] && Undoable(base, m.world, ch, u) && Untouched(base, m.world, u.build)
    requires u.previous.challenge == ch && DistinctImages(u.candidate.images) && u.candidate.source == g
    requires TagsOf(m.world.tags, ch, u.build, u.candidate.images, g)
    requires u.candidate.hasArtifacts <==> Canonical(u.build) in m.world.artifacts
    requires clean ==> Promoted(pre, m.world, u)
    modifies m
    ensures Safe(base, m.world, ch) && Undiminished(base, m.world) && Moves(base, old(m.world), m.world)
    ensures r == Undone(true) ==> TakenBack(base, pre, m.world, u.build, m.reliable)
    ensures m.reliable && Calm(base, old(m.world), ch) && clean ==> r != Undone(false) && Calm(base, m.world, ch)
    ensures r.Updated? ==>
      && r.clean == clean && r.update.build == u.build && r.update.candidate == u.candidate && |t.stages| == |r.update.cutovers| + 1
      && Tidy(base, m.world) && Elsewhere(old(m.world), m.world, ch, u.build)
      && Undoable(base, m.world, ch, r.update) && (Calm(base, old(m.world), ch) ==> Calm(base, m.world, ch))
      && WhollyOf(m.world, u.build, g) && NewlyRun(base, m.world, u.build)
      && u.build in m.world.db.builds && m.world.db.builds[u.build].output == u.candidate
      && CutsFor(InstancesOf(old(m.world.db), u.build), r.update.cutovers)
    ensures r.Updated? && clean ==> t.pre == pre && Carried(t, r.update, m.world)
    ensures m.reliable && !refused ==> r.Updated?
    ensures r.Updated? ==> !refused
    ensures
      var able := Movable(base, old(m.world), m.portLow, m.portHigh, u.candidate.images, known, InstancesOf(old(m.world.db), u.build));
      m.reliable && m.fortunate && able ==> !refused && Moved(base, old(m.world), m.world, m.portLow, m.portHigh, u.candidate.images, InstancesOf(old(m.world.db), u.build))
    ensures old(m.crashPoints) <= m.crashPoints
    ensures forall d | d in m.crashPoints :: d in old(m.crashPoints) || Safe(base, d, ch)
  {
    hide *;
    ghost var d := m.world;
    refused := false;
    t := Trail(pre, [d]);
    SafeParts(base, d, ch);
    CutOverReady(base, d, ch, u);
    UndoableParts(base, d, ch, u);
    SafeRow(base, d, ch, u.build, u.candidate, 0);
    MovesRefl(base, d);
    if clean { PromotedFinalized(pre, d, u, u.candidate); }
    RowAccepted(d, u.build, u.candidate);
    var ok := FinalizeBuild(m, u.build, u.candidate);
    if !ok {
      UnderwayFirst(base, d, ch, u, pre);
      UnderwayParts(base, d, d, ch, u, u, t);
      var undone := RollbackBuildUpdate(m, u, t, base, ch);
      if clean && undone { SameIsTakenBack(base, pre, m.world, u.build); }
      TakenBackExactly(base, pre, m.world, u.build, m.reliable);
      return Undone(clean && undone), t, refused;
    }
    ghost var s3 := m.world;
    FinalizedRow(d.db, u.build, u.candidate);
    MovableStays(base, d, s3, m.portLow, m.portHigh, u.candidate.images, known, InstancesOf(s3.db, u.build));
    AllTaggedImages(s3.tags, ch, u.build, u.candidate.images, g);
    UndoableFinalized(base, d, s3, ch, u);
    TagsAreOf(s3.tags, ch, u.build, u.candidate.images, g);
    r, t, refused := CutOverInstances(m, u, known, pre, g, base, ch);
    MovesTrans(base, d, s3, m.world);
    InstalledMoved(base, d, s3, m.world, m.portLow, m.portHigh, u.candidate.images, known, ch, u.build, InstancesOf(s3.db, u.build));
    if r.Undone? {
      return Undone(r.clean && clean), t, refused;
    }
    UnderwayParts(base, s3, m.world, ch, u, r.update, t);
    UndoableParts(base, m.world, ch, r.update);
    ElsewhereTrans(d, s3, m.world, ch, u.build);
    RebuiltGeneration(base, s3, m.world, ch, u.build, u.candidate, g);
    r := Updated(r.update, clean);
  }

  lemma FinalizedRow(db: Db, b: BuildId, output: BuildOutput)
    requires b in db.builds
    ensures
      var d := WithOutput(db, b, output, 0);
      && d.instances == db.instances && d.challenges == db.challenges && b in d.builds
      && d.builds[b].output == output && d.builds[b].challenge == db.builds[b].challenge
      && InstancesOf(d, b) == InstancesOf(db, b)
  {
  }

  /**
   Rebuilds one build from `c`, moves its names and its instances over, and keeps what is
   needed to go back.  A failure on the way is undone at once.
   */
  method UpdateBuild(m: Manager, ch: ChallengeId, c: Challenge, b: BuildId, ghost base: World)
    returns (r: BuildUpdateResult, ghost t: Trail, ghost refused: bool)
    requires m.portLow == 0 || m.portLow <= m.portHigh
    requires Sound(base) && Safe(base, m.world, ch) && Tidy(base, m.world) && Undiminished(base, m.world)
    requires b in base.db.builds && base.db.builds[b].challenge == ch
    requires Untouched(base, m.world, b) && DistinctHosts(c.hosts) && RecordImages(m.world.db, ch) == ImagesOf(c.hosts, c.portMap)
    modifies m
    ensures Safe(base, m.world, ch) && Undiminished(base, m.world) && Moves(base, old(m.world), m.world)
    ensures r == Undone(true) ==> TakenBack(base, old(m.world), m.world, b, m.reliable)
    ensures m.reliable && Calm(base, old(m.world), ch) ==> r != Undone(false) && Calm(base, m.world, ch)
    ensures r.Updated? ==>
      && b in m.world.db.builds
      && r.update.build == b && r.update.candidate == m.world.db.builds[b].output && |t.stages| == |r.update.cutovers| + 1
      && Tidy(base, m.world) && Elsewhere(old(m.world), m.world, ch, b)
      && Undoable(base, m.world, ch, r.update)
      && WhollyOf(m.world, b, c.sourceDigest) && NewlyRun(base, m.world, b)
      && CutsFor(InstancesOf(old(m.world.db), b), r.update.cutovers)
    ensures r.Updated? && r.clean ==> t.pre == old(m.world) && Carried(t, r.update, m.world)
    ensures m.reliable && Calm(base, old(m.world), ch) && r.Updated? ==> r.clean
    ensures m.reliable && m.fortunate && Readable(c) && !refused ==> r.Updated?
    ensures r.Updated? ==> !refused
    ensures
      var able := Movable(base, old(m.world), m.portLow, m.portHigh, ImagesOf(c.hosts, c.portMap), c.portMap.Keys, InstancesOf(old(m.world.db), b));
      m.reliable && m.fortunate && Readable(c) && able ==>
        !refused && Moved(base, old(m.world), m.world, m.portLow, m.portHigh, ImagesOf(c.hosts, c.portMap), InstancesOf(old(m.world.db), b))
    ensures old(m.crashPoints) <= m.crashPoints
    ensures forall d | d in m.crashPoints :: d in old(m.crashPoints) || Safe(base, d, ch)
  {
    hide *;
    ghost var s := m.world;
    refused := false;
    t := Trail(s, [s]);
    SafeParts(base, s, ch);
    MovesRefl(base, s);
    NothingToTakeBack(base, s, b, m.reliable);
    BuildOfChallenge(base, s, ch, b);
    UntouchedRow(base, s, b);
    ReadableHost(c);
    var read := m.Query();
    if !read {
      return Undone(true), t, refused;
    }
    var previous := m.world.db.builds[b];
    var drawn := NewQualifier(m);
    if drawn.None? {
      return Undone(true), t, refused;
    }
    var qualifier := drawn.value;

    SafeBuilt(base, s, ch, b, c.hosts, qualifier);
    BuiltReach(base, s, ch, b, c.hosts, qualifier);
    var ok, clean, output := ExecuteBuild(m, c, ch, b, qualifier);
    ghost var w := m.world;
    BuiltParts(s, w, ch, b, c.hosts, qualifier);
    SafeTagsOnly(base, w, ch, b);
    if clean { QuietBuilt(base, s, w, w, ch, b, c.hosts, qualifier); }
    if !ok {
      var discarded := DiscardStagedBuild(m, ch, b, c.hosts, qualifier, s);
      MovesTrans(base, s, w, m.world);
      if clean && discarded { DiscardedBack(base, s, w, m.world, ch, b, c.hosts, qualifier, m.reliable); }
      return Undone(clean && discarded), t, refused;
    }
    StagedAreTagged(w.tags, ch, b, c.hosts, qualifier, c.sourceDigest);
    StagedArtifact(s, qualifier, b);
    var promotedCleanly, p;
    ok, promotedCleanly, p := PromoteStagedBuild(m, ch, b, c.hosts, output.hasArtifacts, qualifier, s);
    ghost var d := m.world;
    MovesTrans(base, s, w, d);
    NamesMoved(w, d, ch, b);
    if !ok {
      SafeTagsOnly(base, d, ch, b);
      var discarded := DiscardStagedBuild(m, ch, b, c.hosts, qualifier, s);
      MovesTrans(base, s, d, m.world);
      if clean && promotedCleanly && discarded { DiscardedBack(base, s, w, m.world, ch, b, c.hosts, qualifier, m.reliable); }
      return Undone(clean && promotedCleanly && discarded), t, refused;
    }
    var u := BuildUpdate(ch, b, c.hosts, previous, output, qualifier, p, []);
    if clean { PromotedFrom(s, w, d, u); }
    RecordKept(base, s, d, ch);
    ReadyToInstall(base, s, w, d, ch, c, u);
    if clean { MovableBuilt(base, s, w, d, ch, b, c.hosts, qualifier, m.portLow, m.portHigh, output.images, c.portMap.Keys, InstancesOf(s.db, b)); }
    r, t, refused := InstallBuild(m, u, c.portMap.Keys, clean, s, c.sourceDigest, base, ch);
    MovesTrans(base, s, d, m.world);
    MovedFrom(base, s, d, m.world, m.portLow, m.portHigh, output.images, InstancesOf(s.db, b));
    if r.Updated? { ElsewhereTrans(s, d, m.world, ch, b); }
  }

  /** There is an image to read the output from. */
  ghost predicate Readable(c: Challenge) {
    "builder" in c.hosts || "challenge" in c.hosts
  }

  lemma ReadableHost(c: Challenge)
    ensures Readable(c) <==> "builder" in c.hosts || "challenge" in c.hosts
  {
  }

  lemma StagedAreTagged(tags: map<TagName, Image>, ch: ChallengeId, b: BuildId, hosts: seq<string>, qualifier: string, source: string)
    requires AllStaged(tags, ch, b, hosts, qualifier, source)
    ensures AllTagged(tags, ch, b, hosts, qualifier)
  {
  }

  lemma StagedArtifact(s: World, qualifier: string, b: BuildId)
    requires Unused(s, qualifier)
    ensures ArtifactFor(qualifier, b) == Staged(qualifier, b)
  {
  }

  lemma MovableBuilt(base: World, s: World, w: World, d: World, ch: ChallengeId, b: BuildId, hosts: seq<string>, qualifier: string,
                     low: nat, high: nat, images: seq<HostImage>, known: set<string>, ids: set<InstanceId>)
    requires BuiltCleanly(s, w, ch, b, hosts, qualifier) && d == w.(tags := d.tags, artifacts := d.artifacts)
    ensures Movable(base, s, low, high, images, known, ids) ==> Movable(base, d, low, high, images, known, ids)
    ensures d.db == s.db
  {
    hide Movable, StagedOnly;
    MovableStays(base, s, d, low, high, images, known, ids);
  }

  lemma MovedFrom(base: World, s: World, d: World, now: World, low: nat, high: nat, images: seq<HostImage>, ids: set<InstanceId>)
    ensures d.db == s.db && Moved(base, d, now, low, high, images, ids) ==> Moved(base, s, now, low, high, images, ids)
  {
    hide Quiet;
  }

  /** A promoted build has all that recording it takes. */
  lemma ReadyToInstall(base: World, s: World, w: World, d: World, ch: ChallengeId, c: Challenge, u: BuildUpdate)
    requires u.challenge == ch && u.hosts == c.hosts && u.cutovers == [] && DistinctHosts(c.hosts) && Unused(s, u.qualifier)
    requires u.build in base.db.builds && base.db.builds[u.build].challenge == ch && Untouched(base, s, u.build)
    requires u.previous.output.images == base.db.builds[u.build].output.images && DistinctImages(u.previous.output.images)
    requires base.db.builds[u.build].output.flag != "" ==> u.previous.output.flag != ""
    requires u.candidate.flag != "" && u.candidate.images == ImagesOf(c.hosts, c.portMap) == RecordImages(d.db, ch)
    requires u.promotion.challenge == ch && u.promotion.build == u.build && u.promotion.hosts == c.hosts && u.promotion.qualifier == u.qualifier
    requires OwnNames(u.promotion) && Published(w.tags, d.tags, u.promotion, c.hosts)
    requires AllStaged(w.tags, ch, u.build, c.hosts, u.qualifier, c.sourceDigest)
    requires u.candidate.hasArtifacts ==> ArtifactFor(u.qualifier, u.build) in w.artifacts
    requires Lookup(d.artifacts, Canonical(u.build)) == if u.candidate.hasArtifacts then Lookup(w.artifacts, Staged(u.qualifier, u.build)) else None
    requires w.db == s.db.(retired := w.db.retired) && d.db == w.db && Elsewhere(s, w, ch, u.build) && Elsewhere(w, d, ch, u.build)
    ensures Undoable(base, d, ch, u) && Untouched(base, d, u.build) && DistinctImages(u.candidate.images)
    ensures TagsOf(d.tags, ch, u.build, u.candidate.images, c.sourceDigest)
    ensures u.candidate.hasArtifacts <==> Canonical(u.build) in d.artifacts
    ensures Elsewhere(s, d, ch, u.build) && InstancesOf(d.db, u.build) == InstancesOf(s.db, u.build)
  {
    hide *;
    UnusedParts(s, u.qualifier);
    UndoableFirst(base, d, ch, u);
    ImagesShareNoName(c.hosts, c.portMap);
    PublishedGeneration(w.tags, d.tags, u.promotion, c.portMap, c.sourceDigest);
    PublishedArtifact(w.artifacts, d.artifacts, u.qualifier, u.build, u.candidate.hasArtifacts);
    UntouchedBuilt(base, s, w, d, u.build);
    ElsewhereTrans(s, w, d, ch, u.build);
  }

  lemma UntouchedRow(base: World, s: World, b: BuildId)
    requires Untouched(base, s, b)
    ensures b in base.db.builds && b in s.db.builds && s.db.builds[b].output.images == base.db.builds[b].output.images
  {
  }

  lemma RecordKept(base: World, s: World, d: World, ch: ChallengeId)
    requires Moves(base, s, d)
    ensures RecordImages(d.db, ch) == RecordImages(s.db, ch) && d.db.challenges == s.db.challenges
  {
  }

  lemma NamesMoved(s: World, d: World, ch: ChallengeId, b: BuildId)
    requires TagsOnly(s, d, ch, b)
    ensures d == s.(tags := d.tags, artifacts := d.artifacts)
  {
  }

  lemma PublishedArtifact(staged: map<ArtifactName, string>, now: map<ArtifactName, string>, qualifier: string, b: BuildId, hasArtifacts: bool)
    requires qualifier != "" && (hasArtifacts ==> ArtifactFor(qualifier, b) in staged)
    requires Lookup(now, Canonical(b)) == if hasArtifacts then Lookup(staged, Staged(qualifier, b)) else None
    ensures hasArtifacts <==> Canonical(b) in now
  {
  }

  lemma UntouchedBuilt(base: World, s: World, w: World, d: World, b: BuildId)
    requires Untouched(base, s, b) && w.db == s.db.(retired := w.db.retired) && d.db == w.db
    ensures Untouched(base, d, b) && InstancesOf(d.db, b) == InstancesOf(s.db, b)
  {
  }

  lemma QuietBuilt(base: World, s: World, w: World, d: World, ch: ChallengeId, b: BuildId, hosts: seq<string>, qualifier: string)
    requires BuiltCleanly(s, w, ch, b, hosts, qualifier) && d == w.(tags := d.tags, artifacts := d.artifacts)
    ensures Calm(base, s, ch) ==> Calm(base, d, ch)
  {
  }

  // ----------------------------------------------------------------- finish

  ghost predicate HostOf(images: seq<HostImage>, host: string) {
    exists image :: image in images && image.host == host
  }

  /** Besides containers and retired rows, only staged names and canonical tags of hosts that
      `u` no longer has are gone. */
  ghost predicate Trims(s: World, d: World, u: BuildUpdate) {
    && d.db == s.db.(retired := d.db.retired) && d.db.retired <= s.db.retired && d.nextId == s.nextId
    && Keeps(d.containers, s.containers) && d.tags.Keys <= s.tags.Keys
    && (forall c | c in d.containers && c in s.running :: c in d.running)
    && d.running <= s.running && (forall c | c in d.containers :: SameEntry(s.picked, d.picked, c))
    && (forall a | a != Backup(u.promotion.qualifier, u.build) :: Lookup(d.artifacts, a) == Lookup(s.artifacts, a))
    && (forall n: TagName | n.qualifier == "" && !(n.build == u.build && !HostOf(u.candidate.images, n.host)) ::
          Lookup(d.tags, n) == Lookup(s.tags, n))
  }

  lemma TrimsTrans(s: World, mid: World, d: World, u: BuildUpdate)
    requires Trims(s, mid, u) && Trims(mid, d, u)
    ensures Trims(s, d, u)
  {
  }

  lemma TrimsRefl(s: World, u: BuildUpdate)
    ensures Trims(s, s, u)
  {
  }

  lemma TrimsIds(s: World, d: World, u: BuildUpdate)
    requires Trims(s, d, u)
    ensures d.nextId == s.nextId && d.db.challenges == s.db.challenges
  {
  }

  lemma TrimsReaped(s: World, u: BuildUpdate, ids: set<ContainerId>)
    ensures forall d :: Reaped(s, d, ids) ==> Trims(s, d, u)
  {
  }

  /** What an update leaves behind when it is kept is still all of one generation. */
  lemma TrimsKeepsGeneration(base: World, s: World, d: World, u: BuildUpdate, x: BuildId, g: string)
    requires Trims(s, d, u) && WhollyOf(s, x, g) && u.build in s.db.builds && s.db.builds[u.build].output == u.candidate
    ensures WhollyOf(d, x, g)
    ensures NewlyRun(base, s, x) ==> NewlyRun(base, d, x)
  {
    hide RuntimeImages, Renewed;
    var ch := s.db.builds[x].challenge;
    forall image | image in s.db.builds[x].output.images
      ensures var n := TagName(ch, x, image.host, ""); n in s.tags && n in d.tags && d.tags[n] == s.tags[n]
    {
      var n := CanonicalTag(ch, x, image.host);
      assert x == u.build ==> HostOf(u.candidate.images, image.host);
      assert Lookup(d.tags, n) == Lookup(s.tags, n);
    }
    assert Lookup(d.artifacts, Canonical(x)) == Lookup(s.artifacts, Canonical(x));
    if NewlyRun(base, s, x) {
      forall i | i in d.db.instances && d.db.instances[i].build == x
        ensures Renewed(base, d, i, ch, x, s.db.builds[x].output.images)
      {
        RenewedStays(base, s, d, i, ch, x, s.db.builds[x].output.images);
      }
    }
  }

  /** Every instance of the challenge has moved to containers created since `base`. */
  ghost predicate AllNew(base: World, db: Db, ch: ChallengeId) {
    forall i, c | Belongs(base.db, i, ch) && i in db.instances && c in db.instances[i].runtime.containers :: c >= base.nextId
  }

  lemma OldAreUnowned(base: World, now: World, ch: ChallengeId, cut: InstanceCutover)
    requires Sound(base) && Safe(base, now, ch) && AllNew(base, now.db, ch)
    requires Belongs(base.db, cut.instance, ch) && cut.old_ == base.db.instances[cut.instance].runtime
    ensures forall c | c in cut.old_.containers :: !Owned(now.db, c)
  {
    hide BuildsDistinct, OwnedOrRetired, FitsRuntime, Tracked, OtherTags, WithinDocker;
  }

  lemma TablesUnchanged(base: World, s: World, d: World, ch: ChallengeId, u: BuildUpdate)
    requires Trims(s, d, u)
    ensures AllNew(base, s.db, ch) ==> AllNew(base, d.db, ch)
    ensures d.db.instances == s.db.instances && d.db.builds == s.db.builds
  {
  }

  /** Removes what a kept update no longer needs: the old containers, the staged names, and the
      canonical tags of hosts the challenge no longer has. */
  method FinishBuildUpdate(m: Manager, ch: ChallengeId, u: BuildUpdate, ghost base: World) returns (ok: bool)
    requires Sound(base) && Safe(base, m.world, ch) && AllNew(base, m.world.db, ch)
    requires Undoable(base, m.world, ch, u)
    modifies m
    ensures Safe(base, m.world, ch) && Trims(old(m.world), m.world, u)
    ensures ok ==> OldGone(m.world, u.cutovers)
    ensures ok ==> forall n | IsStagedTag(n, ch, u.build, u.promotion.hosts, u.promotion.qualifier) :: n !in m.world.tags
    ensures ok ==> ObsoleteGone(m.world.tags, ch, u, |u.previous.output.images|)
    ensures ok && u.promotion.hadArtifact ==> Backup(u.promotion.qualifier, u.build) !in m.world.artifacts
    ensures m.reliable ==> ok
    ensures old(m.crashPoints) <= m.crashPoints
    ensures forall d | d in m.crashPoints :: d in old(m.crashPoints) || Safe(base, d, ch)
  {
    hide *;
    ghost var s := m.world;
    UndoableParts(base, s, ch, u);
    TrimsRefl(s, u);
    NoneObsolete(s.tags, ch, u);
    ok := true;
    OldGoneNone(s);
    assert u.cutovers[..0] == [];
    for k := 0 to |u.cutovers|
      invariant Safe(base, m.world, ch) && Trims(s, m.world, u)
      invariant ok ==> OldGone(m.world, u.cutovers[..k])
      invariant m.reliable ==> ok
      invariant old(m.crashPoints) <= m.crashPoints
      invariant forall d | d in m.crashPoints :: d in old(m.crashPoints) || Safe(base, d, ch)
    {
      ghost var now := m.world;
      TablesUnchanged(base, s, now, ch, u);
      CutIsUndoable(base, s, ch, u.cutovers, u.cutovers[k]);
      OldAreUnowned(base, now, ch, u.cutovers[k]);
      TrimsReaped(now, u, u.cutovers[k].old_.containers);
      var removed := FinishInstanceCutover(m, u.cutovers[k], base, ch);
      TrimsTrans(s, now, m.world, u);
      if ok && removed { OldGoneStep(now, m.world, u, k); }
      ok := ok && removed;
    }
    assert u.cutovers[..|u.cutovers|] == u.cutovers;
    ghost var t := m.world;
    SafeTagsOnly(base, t, ch, u.build);
    var finished := FinishStagedBuild(m, u.promotion);
    ok := ok && finished;
    ghost var f := m.world;
    FinishedTrims(t, f, ch, u);
    TrimsTrans(s, t, f, u);
    TrimsRefl(f, u);
    NoneObsolete(f.tags, ch, u);
    for k := 0 to |u.previous.output.images|
      invariant Safe(base, m.world, ch) && Trims(s, m.world, u) && Trims(f, m.world, u)
      invariant ok ==> ObsoleteGone(m.world.tags, ch, u, k)
      invariant m.world.artifacts == f.artifacts
      invariant ok ==> finished && OldGone(t, u.cutovers)
      invariant m.reliable ==> ok
      invariant old(m.crashPoints) <= m.crashPoints
      invariant forall d | d in m.crashPoints :: d in old(m.crashPoints) || Safe(base, d, ch)
    {
      ghost var now := m.world;
      var host := u.previous.output.images[k].host;
      var retained := exists image :: image in u.candidate.images && image.host == host;
      if !retained {
        TrimsObsolete(now, ch, u, host);
        SafeTagsOnly(base, now, ch, u.build);
        var r := m.ImageRemove(TagName(ch, u.build, host, ""));
        TrimsTrans(s, now, m.world, u);
        TrimsTrans(f, now, m.world, u);
        if ok && r != Failed { OneObsolete(now.tags, ch, u, k); }
        ok := ok && r != Failed;
      } else if ok {
        RetainedHost(now.tags, ch, u, k);
      }
    }
    if ok { TrimsKeepsGone(t, f, m.world, u); StaysGone(f, m.world, ch, u); }
  }

  /** Of the first `k` hosts the build had, those it has no longer have no tag. */
  ghost predicate ObsoleteGone(tags: map<TagName, Image>, ch: ChallengeId, u: BuildUpdate, k: nat)
    requires k <= |u.previous.output.images|
  {
    forall j | 0 <= j < k && !HostOf(u.candidate.images, u.previous.output.images[j].host) ::
      TagName(ch, u.build, u.previous.output.images[j].host, "") !in tags
  }

  lemma NoneObsolete(tags: map<TagName, Image>, ch: ChallengeId, u: BuildUpdate)
    ensures ObsoleteGone(tags, ch, u, 0)
  {
  }

  lemma OneObsolete(tags: map<TagName, Image>, ch: ChallengeId, u: BuildUpdate, k: nat)
    requires k < |u.previous.output.images| && ObsoleteGone(tags, ch, u, k)
    ensures ObsoleteGone(tags - {TagName(ch, u.build, u.previous.output.images[k].host, "")}, ch, u, k + 1)
  {
  }

  lemma RetainedHost(tags: map<TagName, Image>, ch: ChallengeId, u: BuildUpdate, k: nat)
    requires k < |u.previous.output.images| && ObsoleteGone(tags, ch, u, k)
    requires exists image :: image in u.candidate.images && image.host == u.previous.output.images[k].host
    ensures ObsoleteGone(tags, ch, u, k + 1)
  {
  }

  /** The containers replaced by `cuts` are gone and forgotten. */
  ghost predicate OldGone(now: World, cuts: seq<InstanceCutover>) {
    forall cut | cut in cuts :: cut.old_.containers !! now.containers.Keys && cut.old_.containers !! now.db.retired
  }

  lemma OldGoneNone(s: World)
    ensures OldGone(s, [])
  {
  }

  lemma OldGoneStep(now: World, d: World, u: BuildUpdate, k: nat)
    requires k < |u.cutovers| && OldGone(now, u.cutovers[..k]) && Reaped(now, d, u.cutovers[k].old_.containers)
    requires u.cutovers[k].old_.containers !! d.containers.Keys && u.cutovers[k].old_.containers !! d.db.retired
    ensures OldGone(d, u.cutovers[..k + 1])
  {
    TrimsReaped(now, u, u.cutovers[k].old_.containers);
    forall cut | cut in u.cutovers[..k + 1]
      ensures cut in u.cutovers[..k] || cut == u.cutovers[k]
    {
    }
  }

  lemma TrimsKeepsGone(t: World, f: World, d: World, u: BuildUpdate)
    requires OldGone(t, u.cutovers) && Trims(t, f, u) && Trims(f, d, u)
    ensures OldGone(d, u.cutovers)
  {
    TrimsTrans(t, f, d, u);
  }

  lemma StaysGone(f: World, d: World, ch: ChallengeId, u: BuildUpdate)
    requires Trims(f, d, u)
    requires forall n | IsStagedTag(n, ch, u.build, u.promotion.hosts, u.promotion.qualifier) :: n !in f.tags
    ensures forall n | IsStagedTag(n, ch, u.build, u.promotion.hosts, u.promotion.qualifier) :: n !in d.tags
  {
  }

  lemma FinishedTrims(s: World, d: World, ch: ChallengeId, u: BuildUpdate)
    requires TagsOnly(s, d, ch, u.build) && d.tags.Keys <= s.tags.Keys
    requires forall n: TagName | n.qualifier == "" :: Lookup(d.tags, n) == Lookup(s.tags, n)
    requires forall a | a != Backup(u.promotion.qualifier, u.build) :: Lookup(d.artifacts, a) == Lookup(s.artifacts, a)
    ensures Trims(s, d, u)
  {
  }

  lemma TrimsObsolete(s: World, ch: ChallengeId, u: BuildUpdate, host: string)
    requires !exists image :: image in u.candidate.images && image.host == host
    ensures Trims(s, s, u)
    ensures
      var d := s.(tags := s.tags - {TagName(ch, u.build, host, "")});
      Trims(s, d, u) && TagsOnly(s, d, ch, u.build) && TagsOnly(s, s, ch, u.build)
  {
  }

  // ----------------------------------------------- why the order is reversed

  const ORDER_BUILD := Build("s", "f", "c", 0, 2, 0, BuildOutput("flag", map[], [], [], false, "g"))
  const FIRST_OLD := Runtime(map["p" := 1], {0})
  const FIRST_NEW := Runtime(map[], {2})
  const SECOND_OLD := Runtime(map["q" := 2], {1})
  const SECOND_NEW := Runtime(map["q" := 2, "r" := 1], {3})

  /** Two instances before their cutovers; the first gives up port 1 and the second takes it. */
  const BEFORE_CUTOVERS := Db(map["c" := Challenge("", "", false, "", "", "", [], map[], "")], map[], map[0 := ORDER_BUILD],
                              map[0 := Instance(0, 0, FIRST_OLD), 1 := Instance(0, 0, SECOND_OLD)], {}, {})

  function OrderRows(first: Runtime, second: Runtime): map<InstanceId, Instance> {
    map[0 := Instance(0, 0, first), 1 := Instance(0, 0, second)]
  }

  lemma OrderPorts(first: Runtime, second: Runtime)
    requires (first == FIRST_OLD || first == FIRST_NEW) && (second == SECOND_OLD || second == SECOND_NEW)
    ensures UniquePorts(OrderRows(first, second)) <==> !(first == FIRST_OLD && second == SECOND_NEW)
  {
    var rows := OrderRows(first, second);
    if first == FIRST_OLD && second == SECOND_NEW {
      assert rows[0].runtime.ports["p"] == rows[1].runtime.ports["r"];
    }
  }

  lemma OrderConstraints(first: Runtime, second: Runtime, retired: set<ContainerId>)
    requires (first == FIRST_OLD || first == FIRST_NEW) && (second == SECOND_OLD || second == SECOND_NEW)
    ensures Constraints(BEFORE_CUTOVERS.(instances := OrderRows(first, second), retired := retired))
      <==> !(first == FIRST_OLD && second == SECOND_NEW)
  {
    hide UniquePorts, PortsInRange, UniqueContainers;
    OrderPorts(first, second);
    OrderRuntimes(first, second);
  }

  lemma OrderRuntimes(first: Runtime, second: Runtime)
    requires (first == FIRST_OLD || first == FIRST_NEW) && (second == SECOND_OLD || second == SECOND_NEW)
    ensures PortsInRange(OrderRows(first, second)) && UniqueContainers(OrderRows(first, second))
  {
  }

  /** Undone first-made-first, the first instance asks for a port that is taken: the tables
      refuse.  Undone last-made-first, both steps go through and the rows are as before. */
  lemma ForwardUndoCollides()
    ensures
      var d1 := ReplaceRuntime(BEFORE_CUTOVERS, 0, FIRST_NEW);
      var d2 := ReplaceRuntime(d1, 1, SECOND_NEW);
      && Constraints(BEFORE_CUTOVERS) && Constraints(d1) && Constraints(d2)
      && !Constraints(ReplaceRuntime(d2, 0, FIRST_OLD))
      && Constraints(ReplaceRuntime(d2, 1, SECOND_OLD))
      && Constraints(ReplaceRuntime(ReplaceRuntime(d2, 1, SECOND_OLD), 0, FIRST_OLD))
      && ReplaceRuntime(ReplaceRuntime(d2, 1, SECOND_OLD), 0, FIRST_OLD).instances == BEFORE_CUTOVERS.instances
  {
    hide Constraints;
    var d1 := ReplaceRuntime(BEFORE_CUTOVERS, 0, FIRST_NEW);
    var d2 := ReplaceRuntime(d1, 1, SECOND_NEW);
    var forward := ReplaceRuntime(d2, 0, FIRST_OLD);
    var back := ReplaceRuntime(d2, 1, SECOND_OLD);
    var restored := ReplaceRuntime(back, 0, FIRST_OLD);
    assert BEFORE_CUTOVERS.instances == OrderRows(FIRST_OLD, SECOND_OLD);
    assert d1.instances == OrderRows(FIRST_NEW, SECOND_OLD);
    assert d2.instances == OrderRows(FIRST_NEW, SECOND_NEW);
    assert forward.instances == OrderRows(FIRST_OLD, SECOND_NEW);
    assert back.instances == OrderRows(FIRST_NEW, SECOND_OLD);
    assert restored.instances == BEFORE_CUTOVERS.instances;
    OrderConstraints(FIRST_OLD, SECOND_OLD, {});
    OrderConstraints(FIRST_NEW, SECOND_OLD, d1.retired);
    OrderConstraints(FIRST_NEW, SECOND_NEW, d2.retired);
    OrderConstraints(FIRST_OLD, SECOND_NEW, forward.retired);
    OrderConstraints(FIRST_NEW, SECOND_OLD, back.retired);
    OrderConstraints(FIRST_OLD, SECOND_OLD, restored.retired);
  }
}
