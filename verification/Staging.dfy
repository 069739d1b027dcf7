/** Staging the builds of a schema without touching what is active (database_builds.go,
    docker.go). */
module Staging {
  import opened Store
  import opened Instances
  import opened Containers
  import opened Safety
  import opened Promotion
  import opened Building
  import opened Generations
  import opened BuildUpdates
  import opened Detection

  /** A build a schema asks for: its row, and what the definition says about it. */
  datatype StagedBuild = StagedBuild(id: BuildId, challenge: ChallengeId, seed: int, target: int, flag: string)

  const NO_OUTPUT := BuildOutput("", map[], [], [], false, "")

  // --------------------------------------------------------------- staging

  /** Only new rows of the schema came, locked and without output. */
  ghost predicate StagedRows(s: World, d: World, name: string) {
    && d == s.(db := s.db.(builds := d.db.builds))
    && Keeps(s.db.builds, d.db.builds)
    && (forall b | b in d.db.builds && b !in s.db.builds ::
          d.db.builds[b].schema == name && d.db.builds[b].instanceCount == LOCKED && d.db.builds[b].output == NO_OUTPUT)
  }

  lemma StagedRowsTrans(s: World, mid: World, d: World, name: string)
    requires StagedRows(s, mid, name) && StagedRows(mid, d, name)
    ensures StagedRows(s, d, name)
  {
  }

  lemma StagedRowsRefl(s: World, name: string)
    ensures StagedRows(s, s, name)
  {
  }

  lemma SoundStaged(s: World, d: World, name: string)
    requires Sound(s) && StagedRows(s, d, name) && Constraints(d.db)
    ensures Sound(d)
  {
    hide Constraints, FitsRuntime, OwnedOrRetired;
    assert OwnedOrRetired(d.db) by { SameOwnership(s.db, d.db); }
    assert d.db.instances == s.db.instances && d.db.retired == s.db.retired;
    forall c | Tracked(s.db, c) ensures Tracked(d.db, c) {
      if Owned(s.db, c) { assert Owned(d.db, c); }
    }
  }

  lemma SameOwnership(s: Db, d: Db)
    requires OwnedOrRetired(s) && d.instances == s.instances && d.retired == s.retired
    ensures OwnedOrRetired(d)
  {
  }

  /** The row with this key. */
  ghost predicate HasKey(db: Db, b: BuildId, name: string, format: string, ch: ChallengeId, seed: int) {
    b in db.builds && BuildKey(db.builds[b]) == (name, format, ch, seed)
  }

  lemma StagedOne(s: World, b: BuildId, row: Build)
    requires b !in s.db.builds && row.instanceCount == LOCKED && row.output == NO_OUTPUT
    ensures
      var d := s.(db := s.db.(builds := s.db.builds[b := row]));
      StagedRows(s, d, row.schema) && HasKey(d.db, b, row.schema, row.format, row.challenge, row.seed)
  {
  }

  lemma InsertedConstraints(db: Db, b: BuildId, row: Build)
    requires Constraints(db) && b !in db.builds && row.challenge in db.challenges && row.output == NO_OUTPUT
    requires forall x | x in db.builds :: BuildKey(db.builds[x]) != BuildKey(row)
    ensures Constraints(db.(builds := db.builds[b := row]))
  {
    hide UniquePorts, PortsInRange, UniqueContainers, Recordable;
  }

  /** The largest row id plus one. */
  method NextBuildId(ids: set<BuildId>) returns (b: BuildId)
    ensures forall x | x in ids :: x < b
  {
    b := 0;
    var rest := ids;
    while rest != {}
      invariant rest <= ids
      invariant forall y | y in ids && y !in rest :: y < b
    {
      var x :| x in rest;
      rest := rest - {x};
      if x >= b {
        b := x + 1;
      }
    }
  }

  /** Finds the row of a build by its key, or inserts it locked. */
  method StageBuild(m: Manager, name: string, format: string, ch: ChallengeId, seed: int, target: int)
    returns (ok: bool, staged: StagedBuild)
    requires Sound(m.world)
    modifies m
    ensures StagedRows(old(m.world), m.world, name) && Sound(m.world)
    ensures ok ==>
      && HasKey(m.world.db, staged.id, name, format, ch, seed)
      && staged == StagedBuild(staged.id, ch, seed, target, m.world.db.builds[staged.id].output.flag)
    ensures m.reliable && ch in old(m.world.db.challenges) ==> ok
    ensures old(m.crashPoints) <= m.crashPoints
    ensures forall d | d in m.crashPoints :: d in old(m.crashPoints) || (Sound(d) && StagedRows(old(m.world), d, name))
  {
    hide Sound, StagedRows, Constraints;
    ghost var s := m.world;
    StagedRowsRefl(s, name);
    SoundGivesConstraints(s);
    staged := StagedBuild(0, ch, seed, target, "");
    var b := NextBuildId(m.world.db.builds.Keys);
    assert b !in m.world.db.builds.Keys;
    var taken := exists x :: x in m.world.db.builds && BuildKey(m.world.db.builds[x]) == (name, format, ch, seed);
    if !taken {
      var row := Build(name, format, ch, seed, LOCKED, 0, NO_OUTPUT);
      if ch in s.db.challenges { InsertedConstraints(s.db, b, row); }
      StagedOne(s, b, row);
      ok := m.Commit(m.world.db.(builds := m.world.db.builds[b := row]));
      if !ok {
        return;
      }
      SoundStaged(s, m.world, name);
    } else {
      // ON CONFLICT DO NOTHING
      b :| b in m.world.db.builds && BuildKey(m.world.db.builds[b]) == (name, format, ch, seed);
    }
    ok := m.Query();
    staged := staged.(id := b, flag := m.world.db.builds[b].output.flag);
  }

  lemma SoundGivesConstraints(s: World)
    requires Sound(s)
    ensures Constraints(s.db)
  {
  }

  // -------------------------------------------------------------- building

  /** Rows without output of this schema. */
  ghost predicate Unfinished(db: Db, b: BuildId, name: string) {
    b in db.builds && db.builds[b].schema == name && db.builds[b].output.flag == ""
  }

  /** Build `b` has what its challenge's record asks for, all of that generation. */
  ghost predicate FinishedAsRecorded(s: World, d: World, b: BuildId) {
    && b in d.db.builds && d.db.builds[b].challenge in s.db.challenges
    && var row, c := d.db.builds[b], s.db.challenges[d.db.builds[b].challenge];
    && c.sourceDigest != "" && row.output.source == c.sourceDigest
    && row.output.flag != "" && row.output.images == ImagesOf(c.hosts, c.portMap)
    && TagsOf(d.tags, row.challenge, b, row.output.images, c.sourceDigest)
    && (row.output.hasArtifacts ==> Canonical(b) in d.artifacts)
  }

  /** Unfinished rows of the schema were finished or given up; nothing else was touched. */
  ghost predicate Generated(s: World, d: World, name: string) {
    && (forall b | b in d.db.builds && b in s.db.builds && Unfinished(s.db, b, name) ::
          d.db.builds[b] == s.db.builds[b] || FinishedAsRecorded(s, d, b))
    && d.db == s.db.(builds := d.db.builds, retired := d.db.retired)
    && d.db.builds.Keys <= s.db.builds.Keys
    && (forall b | b in s.db.builds && !Unfinished(s.db, b, name) :: b in d.db.builds && d.db.builds[b] == s.db.builds[b])
    && (forall b | b in d.db.builds :: BuildKey(d.db.builds[b]) == BuildKey(s.db.builds[b]) && d.db.builds[b].instanceCount == s.db.builds[b].instanceCount)
    && Keeps(s.containers, d.containers)
    && d.running == s.running && s.db.retired <= d.db.retired && s.nextId <= d.nextId
    && (forall c | c in s.containers :: SameEntry(s.picked, d.picked, c))
    && (forall c | c in d.containers && c !in s.containers :: c >= s.nextId)
    && (forall n: TagName | !Unfinished(s.db, n.build, name) :: Lookup(d.tags, n) == Lookup(s.tags, n))
    && (forall a: ArtifactName | !Unfinished(s.db, a.build, name) :: Lookup(d.artifacts, a) == Lookup(s.artifacts, a))
  }

  lemma GeneratedTrans(s: World, mid: World, d: World, name: string)
    requires Generated(s, mid, name) && Generated(mid, d, name)
    ensures Generated(s, d, name)
  {
    hide FinishedAsRecorded;
    forall b | !Unfinished(s.db, b, name) ensures !Unfinished(mid.db, b, name) { }
    forall b | b in d.db.builds && b in s.db.builds && Unfinished(s.db, b, name)
      ensures d.db.builds[b] == s.db.builds[b] || FinishedAsRecorded(s, d, b)
    {
      FinishedLater(s, mid, d, b);
      if mid.db.builds[b] != s.db.builds[b] {
        FinishedHasFlag(s, mid, b);
        FinishedStays(s, mid, d, b);
      }
    }
  }

  lemma FinishedHasFlag(s: World, d: World, b: BuildId)
    requires FinishedAsRecorded(s, d, b)
    ensures b in d.db.builds && d.db.builds[b].output.flag != ""
  {
  }

  lemma FinishedLater(s: World, mid: World, d: World, b: BuildId)
    requires mid.db.challenges == s.db.challenges
    ensures FinishedAsRecorded(mid, d, b) ==> FinishedAsRecorded(s, d, b)
  {
  }

  lemma FinishedStays(s: World, mid: World, d: World, b: BuildId)
    requires FinishedAsRecorded(s, mid, b) && b in d.db.builds && d.db.builds[b] == mid.db.builds[b]
    requires forall n: TagName | n.build == b :: Lookup(d.tags, n) == Lookup(mid.tags, n)
    requires forall a: ArtifactName | a.build == b :: Lookup(d.artifacts, a) == Lookup(mid.artifacts, a)
    ensures FinishedAsRecorded(s, d, b)
  {
    var row := d.db.builds[b];
    assert Lookup(d.artifacts, Canonical(b)) == Lookup(mid.artifacts, Canonical(b));
    forall image | image in row.output.images
      ensures var n := CanonicalTag(row.challenge, b, image.host); n in d.tags && d.tags[n] == mid.tags[n]
    {
      assert Lookup(d.tags, CanonicalTag(row.challenge, b, image.host)) == Lookup(mid.tags, CanonicalTag(row.challenge, b, image.host));
    }
  }

  /** New rows are blank, and the rest is as it was. */
  lemma StagedConsistent(s: World, d: World, name: string)
    requires Sound(s) && StagedRows(s, d, name) && Consistent(s)
    ensures Consistent(d)
  {
    hide Constraints, FitsRuntime, OwnedOrRetired, BuildsDistinct, OfGeneration, RunsNew, FromBuild;
    SoundForeignKeys(s);
    forall ch: ChallengeId ensures Generation(d, ch) {
      if ch in d.db.challenges && d.db.challenges[ch].sourceDigest != "" {
        assert Generation(s, ch);
        forall b | b in d.db.builds && d.db.builds[b].challenge == ch
          ensures BuildSpokenFor(d, b, d.db.challenges[ch].sourceDigest)
        {
          if b in s.db.builds {
            assert KeepsBuild(s, d, b);
            KeptSpokenFor(s, d, b, d.db.challenges[ch].sourceDigest);
          }
        }
      }
    }
  }

  lemma SoundForeignKeys(s: World)
    requires Sound(s)
    ensures forall i | i in s.db.instances :: s.db.instances[i].build in s.db.builds
  {
    hide UniquePorts, PortsInRange, UniqueContainers, UniqueBuilds, FitsRuntime, Recordable;
  }

  /** A blank build is finished for the generation on record; others keep theirs. */
  lemma GeneratedConsistent(s: World, d: World, name: string)
    requires Sound(s) && Generated(s, d, name) && Consistent(s)
    ensures Consistent(d)
  {
    hide Generated, BuildSpokenFor, Sound, FinishedAsRecorded, Unfinished;
    GeneratedTables(s, d, name);
    forall ch: ChallengeId ensures Generation(d, ch) {
      if ch in d.db.challenges && d.db.challenges[ch].sourceDigest != "" {
        var g := d.db.challenges[ch].sourceDigest;
        SpokenForBefore(s, ch);
        forall b | b in d.db.builds && d.db.builds[b].challenge == ch
          ensures BuildSpokenFor(d, b, g)
        {
          if FinishedAsRecorded(s, d, b) && Unfinished(s.db, b, name) {
            FinishedSpokenFor(s, d, b, name, g);
          } else {
            GeneratedKeepsBuild(s, d, b, name);
          }
        }
      }
    }
  }

  lemma GeneratedTables(s: World, d: World, name: string)
    requires Generated(s, d, name)
    ensures d.db.challenges == s.db.challenges && d.db.instances == s.db.instances
    ensures forall b | b in d.db.builds :: b in s.db.builds && d.db.builds[b].challenge == s.db.builds[b].challenge
  {
  }

  lemma SpokenForBefore(s: World, ch: ChallengeId)
    requires Consistent(s) && ch in s.db.challenges && s.db.challenges[ch].sourceDigest != ""
    ensures forall b | b in s.db.builds && s.db.builds[b].challenge == ch :: BuildSpokenFor(s, b, s.db.challenges[ch].sourceDigest)
  {
    assert Generation(s, ch);
  }

  lemma FinishedSpokenFor(s: World, d: World, b: BuildId, name: string, g: string)
    requires d.db.instances == s.db.instances && Unfinished(s.db, b, name) && BuildSpokenFor(s, b, g)
    requires FinishedAsRecorded(s, d, b) && g == s.db.challenges[d.db.builds[b].challenge].sourceDigest
    ensures BuildSpokenFor(d, b, g)
  {
    TagsAreOf(d.tags, d.db.builds[b].challenge, b, d.db.builds[b].output.images, g);
  }

  lemma GeneratedKeepsBuild(s: World, d: World, b: BuildId, name: string)
    requires Sound(s) && Generated(s, d, name) && b in d.db.builds
    requires !(FinishedAsRecorded(s, d, b) && Unfinished(s.db, b, name))
    ensures forall g: string :: b in s.db.builds && (BuildSpokenFor(s, b, g) ==> BuildSpokenFor(d, b, g))
  {
    hide FinishedAsRecorded, Constraints, FitsRuntime, OwnedOrRetired, BuildsDistinct;
    assert d.db.builds[b] == s.db.builds[b];
    if Unfinished(s.db, b, name) {
      assert d.db.instances == s.db.instances;
    } else {
      forall image | image in s.db.builds[b].output.images
        ensures var n := CanonicalTag(s.db.builds[b].challenge, b, image.host); n in d.tags ==> n in s.tags && d.tags[n] == s.tags[n]
      {
        assert Lookup(d.tags, CanonicalTag(s.db.builds[b].challenge, b, image.host)) == Lookup(s.tags, CanonicalTag(s.db.builds[b].challenge, b, image.host));
      }
      forall i | i in d.db.instances ensures RunsOld(s, d, i) { }
      assert KeepsBuild(s, d, b);
      forall g: string | BuildSpokenFor(s, b, g) ensures BuildSpokenFor(d, b, g) { KeptSpokenFor(s, d, b, g); }
    }
  }

  lemma GeneratedRefl(s: World, name: string)
    ensures Generated(s, s, name)
  {
  }

  lemma SoundNames(s: World, d: World)
    requires Sound(s) && d == s.(tags := d.tags, artifacts := d.artifacts)
    ensures Sound(d)
  {
    hide Constraints, FitsRuntime, BuildsDistinct, OwnedOrRetired, Tracked;
  }

  lemma BuiltIsGenerated(s: World, d: World, ch: ChallengeId, b: BuildId, hosts: seq<string>, name: string)
    requires Sound(s) && Built(s, d, ch, b, hosts, "") && Unfinished(s.db, b, name)
    ensures Generated(s, d, name) && Sound(d) && d.db.builds == s.db.builds
  {
    hide Sound, Unfinished;
    var s' := s.(tags := d.tags, artifacts := d.artifacts);
    SoundNames(s, s');
    SoundGrown(s', d);
    forall n: TagName | !Unfinished(s.db, n.build, name)
      ensures Lookup(d.tags, n) == Lookup(s.tags, n)
    {
      assert n.build != b;
    }
    forall a: ArtifactName | !Unfinished(s.db, a.build, name)
      ensures Lookup(d.artifacts, a) == Lookup(s.artifacts, a)
    {
      assert a.build != b;
    }
  }

  lemma AllBuilt(s: World, ch: ChallengeId, b: BuildId, hosts: seq<string>, name: string)
    requires Sound(s) && Unfinished(s.db, b, name)
    ensures forall d :: Built(s, d, ch, b, hosts, "") ==> Generated(s, d, name) && Sound(d) && d.db.builds == s.db.builds
  {
    hide Sound, Unfinished, Built, Generated;
    forall d | Built(s, d, ch, b, hosts, "")
      ensures Generated(s, d, name) && Sound(d) && d.db.builds == s.db.builds
    {
      BuiltIsGenerated(s, d, ch, b, hosts, name);
    }
  }

  lemma NamesAreGenerated(s: World, ch: ChallengeId, b: BuildId, name: string)
    requires Sound(s) && Unfinished(s.db, b, name)
    ensures forall d :: TagsOnly(s, d, ch, b) && (forall a: ArtifactName | a.build != b :: Lookup(d.artifacts, a) == Lookup(s.artifacts, a)) ==>
      Generated(s, d, name) && Sound(d) && d.db == s.db
  {
    hide Sound, Unfinished;
    forall d | TagsOnly(s, d, ch, b) && forall a: ArtifactName | a.build != b :: Lookup(d.artifacts, a) == Lookup(s.artifacts, a)
      ensures Generated(s, d, name) && Sound(d)
    {
      SoundNames(s, d);
    }
  }

  lemma FinishedRow(s: World, b: BuildId, output: BuildOutput, name: string)
    requires Sound(s) && Unfinished(s.db, b, name) && DistinctImages(output.images)
    requires FinishedAsRecorded(s, s.(db := WithOutput(s.db, b, output, 0)), b)
    ensures
      var d := s.(db := WithOutput(s.db, b, output, 0));
      && Generated(s, d, name) && (Constraints(d.db) ==> Sound(d))
      && b in d.db.builds && d.db.builds[b].output == output && d.db.builds.Keys == s.db.builds.Keys
      && (forall x | x in s.db.builds && x != b :: d.db.builds[x] == s.db.builds[x])
  {
    hide Sound, Constraints, DistinctImages, FinishedAsRecorded;
    var d := s.(db := WithOutput(s.db, b, output, 0));
    if Constraints(d.db) { SoundRow(s, b, output, 0); }
  }

  lemma RemovedRow(s: World, b: BuildId, name: string)
    requires Sound(s) && Unfinished(s.db, b, name)
    ensures
      var d := s.(db := s.db.(builds := s.db.builds - {b}));
      Generated(s, d, name) && (Constraints(d.db) ==> Sound(d))
  {
    hide Constraints, FitsRuntime;
    var d := s.(db := s.db.(builds := s.db.builds - {b}));
    forall c | Tracked(s.db, c) ensures Tracked(d.db, c) {
      if Owned(s.db, c) { assert Owned(d.db, c); }
    }
  }

  /** Builds one unfinished row under its canonical names, or gives the row up. */
  method GenerateBuild(m: Manager, ch: ChallengeId, c: Challenge, b: BuildId, ghost name: string) returns (ok: bool)
    requires Sound(m.world) && Unfinished(m.world.db, b, name) && DistinctHosts(c.hosts)
    requires m.world.db.builds[b].challenge == ch && ch in m.world.db.challenges && m.world.db.challenges[ch] == c && c.sourceDigest != ""
    modifies m
    ensures Generated(old(m.world), m.world, name) && Sound(m.world)
    ensures ok ==> m.world.db.builds.Keys == old(m.world.db.builds.Keys) && FinishedAsRecorded(old(m.world), m.world, b)
    ensures m.reliable && m.fortunate && Readable(c) ==> ok
    ensures old(m.crashPoints) <= m.crashPoints
    ensures forall d | d in m.crashPoints :: d in old(m.crashPoints) || (Sound(d) && Generated(old(m.world), d, name))
  {
    hide *;
    ghost var s := m.world;
    SoundIssues(s);
    SoundGivesConstraints(s);
    ReadableHost(c);
    GeneratedRefl(s, name);
    AllBuilt(s, ch, b, c.hosts, name);
    var clean, output;
    ok, clean, output := ExecuteBuild(m, c, ch, b, "");
    ghost var w := m.world;
    SameUnfinished(s.db, w.db, b, name);
    if ok {
      ImagesShareNoName(c.hosts, c.portMap);
      BuiltTables(s, w, ch, b, c.hosts);
      UnfinishedRow(w.db, b, name);
      BuiltIsAccepted(s, w, ch, b, c.hosts, output);
      BuiltAsRecorded(w, ch, c, b, output);
      FinishedRow(w, b, output, name);
      ok := FinalizeBuild(m, b, output);
    }
    ghost var f := m.world;
    GeneratedRefl(w, name);
    GeneratedTrans(s, w, f, name);
    if !ok {
      DiscardBuild(m, ch, c, b, name, s);
    } else {
      FinishedLater(s, w, f, b);
    }
  }

  lemma BuiltIsAccepted(s: World, w: World, ch: ChallengeId, b: BuildId, hosts: seq<string>, output: BuildOutput)
    requires Built(s, w, ch, b, hosts, "") && Constraints(s.db) && b in w.db.builds && DistinctImages(output.images)
    ensures Constraints(WithOutput(w.db, b, output, 0))
  {
    hide Constraints, StagedOnly, WithOutput;
    RetiredIsUnconstrained(s.db, w.db.retired);
    assert w.db == s.db.(retired := w.db.retired);
    RowAccepted(w, b, output);
  }

  lemma BuiltTables(s: World, w: World, ch: ChallengeId, b: BuildId, hosts: seq<string>)
    requires Built(s, w, ch, b, hosts, "")
    ensures w.db.challenges == s.db.challenges && w.db.builds == s.db.builds
  {
    hide StagedOnly;
  }

  lemma BuiltAsRecorded(w: World, ch: ChallengeId, c: Challenge, b: BuildId, output: BuildOutput)
    requires b in w.db.builds && w.db.builds[b].challenge == ch && ch in w.db.challenges && w.db.challenges[ch] == c && c.sourceDigest != ""
    requires AllStaged(w.tags, ch, b, c.hosts, "", c.sourceDigest)
    requires output.flag != "" && output.images == ImagesOf(c.hosts, c.portMap) && output.source == c.sourceDigest
    requires output.hasArtifacts ==> ArtifactFor("", b) in w.artifacts
    ensures FinishedAsRecorded(w, w.(db := WithOutput(w.db, b, output, 0)), b)
  {
    forall image | image in output.images
      ensures var n := CanonicalTag(ch, b, image.host); n in w.tags && w.tags[n].source == c.sourceDigest
    {
      assert StagedTag(ch, b, image.host, "") == CanonicalTag(ch, b, image.host);
    }
  }

  /** Withdraws the names of a build that did not work out, and its row. */
  method DiscardBuild(m: Manager, ch: ChallengeId, c: Challenge, b: BuildId, ghost name: string, ghost s: World)
    requires Sound(m.world) && Generated(s, m.world, name) && Unfinished(m.world.db, b, name)
    modifies m
    ensures Generated(s, m.world, name) && Sound(m.world)
    ensures old(m.crashPoints) <= m.crashPoints
    ensures forall d | d in m.crashPoints :: d in old(m.crashPoints) || (Sound(d) && Generated(s, d, name))
  {
    hide *;
    ghost var w := m.world;
    NamesAreGenerated(w, ch, b, name);
    GeneratedFrom(s, w, name);
    TagsOnlyFiles(w, ch, b);
    var _ := DiscardStagedBuild(m, ch, b, c.hosts, "", w);
    ghost var d := m.world;
    SameUnfinished(w.db, d.db, b, name);
    RemovedRow(d, b, name);
    GeneratedFrom(s, d, name);
    var _ := m.Commit(m.world.db.(builds := m.world.db.builds - {b}));
  }

  lemma GeneratedFrom(s: World, mid: World, name: string)
    requires Generated(s, mid, name)
    ensures forall d :: Generated(mid, d, name) ==> Generated(s, d, name)
  {
    hide Generated;
    forall d | Generated(mid, d, name) ensures Generated(s, d, name) { GeneratedTrans(s, mid, d, name); }
  }

  lemma TagsOnlyFiles(s: World, ch: ChallengeId, b: BuildId)
    ensures forall d :: TagsOnly(s, d, ch, b) ==> forall a: ArtifactName | a.build != b :: Lookup(d.artifacts, a) == Lookup(s.artifacts, a)
  {
  }

  lemma SoundIssues(s: World)
    requires Sound(s)
    ensures IdsIssued(s)
  {
  }

  lemma SameUnfinished(s: Db, d: Db, b: BuildId, name: string)
    requires d.builds == s.builds
    ensures Unfinished(d, b, name) == Unfinished(s, b, name)
  {
  }

  lemma UnfinishedRow(db: Db, b: BuildId, name: string)
    requires Unfinished(db, b, name)
    ensures b in db.builds
  {
  }

  /** The row a staged build refers to, with a flag at least when the staged copy has one. */
  ghost predicate Opened(db: Db, x: StagedBuild, name: string) {
    && x.id in db.builds && db.builds[x.id].schema == name && db.builds[x.id].challenge == x.challenge
    && (x.flag != "" ==> db.builds[x.id].output.flag != "")
  }

  lemma OpenedStays(s: World, d: World, x: StagedBuild, name: string)
    requires Generated(s, d, name) && d.db.builds.Keys == s.db.builds.Keys && Opened(s.db, x, name)
    ensures Opened(d.db, x, name)
    ensures s.db.builds[x.id].output.flag != "" ==> d.db.builds[x.id].output.flag != ""
  {
  }

  ghost predicate AllOpened(db: Db, group: seq<StagedBuild>, name: string) {
    forall x | x in group :: Opened(db, x, name)
  }

  ghost predicate Finished(db: Db, group: seq<StagedBuild>) {
    forall x | x in group :: x.id in db.builds && db.builds[x.id].output.flag != ""
  }

  lemma FinishedOn(s: World, d: World, group: seq<StagedBuild>, k: nat, name: string)
    requires k < |group| && Generated(s, d, name) && d.db.builds.Keys == s.db.builds.Keys
    requires AllOpened(s.db, group, name) && Finished(s.db, group[..k])
    requires group[k].id in d.db.builds && d.db.builds[group[k].id].output.flag != ""
    ensures AllOpened(d.db, group, name) && Finished(d.db, group[..k + 1])
  {
    hide Generated;
    forall x | x in group ensures Opened(d.db, x, name) { OpenedStays(s, d, x, name); }
    forall x | x in group[..k + 1] ensures x.id in d.db.builds && d.db.builds[x.id].output.flag != "" {
      if x in group[..k] { assert x in group; OpenedStays(s, d, x, name); }
    }
  }

  lemma OpenedAt(db: Db, group: seq<StagedBuild>, k: nat, name: string)
    requires AllOpened(db, group, name) && k < |group|
    ensures group[k].id in db.builds && db.builds[group[k].id].schema == name && db.builds[group[k].id].challenge == group[k].challenge
    ensures group[k].flag != "" ==> db.builds[group[k].id].output.flag != ""
    ensures db.builds[group[k].id].output.flag == "" ==> Unfinished(db, group[k].id, name)
  {
    assert Opened(db, group[k], name);
  }

  lemma ChallengeHosts(s: World, ch: ChallengeId)
    requires Sound(s) && ch in s.db.challenges
    ensures DistinctHosts(s.db.challenges[ch].hosts)
  {
  }

  /**
   Builds the members of a group that have no output yet.  It refuses to when the challenge on
   disk is not the one on record, so a challenge with an unfinished update is never built.
   */
  method GenerateBuilds(m: Manager, ch: ChallengeId, group: seq<StagedBuild>, inventory: map<ChallengeId, Challenge>,
                        inventoryErrors: bool, ghost name: string)
    returns (ok: bool)
    requires Sound(m.world) && AllOpened(m.world.db, group, name) && (forall x | x in group :: x.challenge == ch)
    modifies m
    ensures Generated(old(m.world), m.world, name) && Sound(m.world)
    ensures ok ==> m.world.db.builds.Keys == old(m.world.db.builds.Keys) && Finished(m.world.db, group)
    ensures (forall x | x in group :: x.flag != "") ==> ok && m.world == old(m.world)
    ensures m.reliable && m.fortunate && !inventoryErrors && Buildable(old(m.world.db), inventory, ch) ==> ok
    ensures ok && (exists x :: x in group && x.flag == "") ==>
      && ch in old(m.world.db.challenges) && ch in inventory && !inventoryErrors
      && Current(old(m.world.db.challenges[ch]), inventory[ch])
    ensures ch in old(m.world.db.challenges) && old(m.world.db.challenges[ch].sourceDigest) == "" && (exists x :: x in group && x.flag == "") ==>
      !ok && m.world == old(m.world)
    ensures old(m.crashPoints) <= m.crashPoints
    ensures forall d | d in m.crashPoints :: d in old(m.crashPoints) || (Sound(d) && Generated(old(m.world), d, name))
  {
    hide *;
    ghost var s := m.world;
    GeneratedRefl(s, name);
    AllFinished(s.db, group, name);
    BuildableParts(s.db, inventory, ch);
    var buildsComplete := forall x | x in group :: x.flag != "";
    if buildsComplete {
      return true;
    }
    var read := m.Query();
    if !read || ch !in m.world.db.challenges {
      return false;
    }
    var c := m.world.db.challenges[ch];
    var updates := DetectChanges(m, inventory, inventoryErrors, {});
    UnmodifiedIsCurrent(s.db, inventory, updates, ch);
    CurrentIsUnmodified(s.db, inventory, updates, ch);
    if updates.errors || ch !in updates.unmodified {
      return false;
    }
    var readable := m.Outside();
    if !readable {
      return false;
    }
    ChallengeHosts(s, ch);
    NoneFinished(s.db, group);
    for k := 0 to |group|
      invariant Generated(s, m.world, name) && Sound(m.world) && m.world.db.builds.Keys == s.db.builds.Keys
      invariant AllOpened(m.world.db, group, name) && Finished(m.world.db, group[..k])
      invariant m.world.db.challenges == s.db.challenges
      invariant old(m.crashPoints) <= m.crashPoints
      invariant forall d | d in m.crashPoints :: d in old(m.crashPoints) || (Sound(d) && Generated(s, d, name))
    {
      ghost var now := m.world;
      OpenedAt(now.db, group, k, name);
      GeneratedRefl(now, name);
      if group[k].flag != "" {
        FinishedOn(now, now, group, k, name);
        continue;
      }
      read := m.Query();
      if !read {
        return false;
      }
      if m.world.db.builds[group[k].id].output.flag != "" {
        FinishedOn(now, now, group, k, name);
        continue;
      }
      GeneratedFrom(s, now, name);
      ok := GenerateBuild(m, ch, c, group[k].id, name);
      GeneratedTables(now, m.world, name);
      if !ok {
        return;
      }
      FinishedHasFlag(now, m.world, group[k].id);
      FinishedOn(now, m.world, group, k, name);
    }
    assert group[..|group|] == group;
    ok := true;
  }

  lemma AllFinished(db: Db, group: seq<StagedBuild>, name: string)
    requires AllOpened(db, group, name)
    ensures (forall x | x in group :: x.flag != "") ==> Finished(db, group)
  {
  }

  lemma NoneFinished(db: Db, group: seq<StagedBuild>)
    ensures Finished(db, group[..0])
  {
  }

  /** The record is the one on disk, and has an image to read the output of its builds from. */
  ghost predicate Buildable(db: Db, inventory: map<ChallengeId, Challenge>, ch: ChallengeId) {
    ch in db.challenges && ch in inventory && Current(db.challenges[ch], inventory[ch]) && Readable(db.challenges[ch])
  }

  lemma BuildableParts(db: Db, inventory: map<ChallengeId, Challenge>, ch: ChallengeId)
    ensures Buildable(db, inventory, ch) ==> ch in db.challenges && ch in inventory && Readable(db.challenges[ch])
  {
  }

  lemma CurrentIsUnmodified(db: Db, inventory: map<ChallengeId, Challenge>, cu: ChallengeUpdates, ch: ChallengeId)
    requires Justified(db, inventory, cu)
    ensures !cu.errors && Classified(db, inventory, {}, cu) && cu.failed == {} && Buildable(db, inventory, ch) ==>
      ch in cu.unmodified && ch in db.challenges && Readable(db.challenges[ch])
  {
    hide Current, Readable;
    if Classified(db, inventory, {}, cu) && Buildable(db, inventory, ch) {
      assert ch in cu.unmodified + cu.refreshed + cu.updated + cu.failed;
    }
  }

  lemma UnmodifiedIsCurrent(db: Db, inventory: map<ChallengeId, Challenge>, cu: ChallengeUpdates, ch: ChallengeId)
    requires Justified(db, inventory, cu)
    ensures !cu.errors && Classified(db, inventory, {}, cu) && ch in cu.unmodified && ch in db.challenges ==>
      db.challenges[ch].sourceDigest != "" && ch in inventory && Current(db.challenges[ch], inventory[ch])
  {
    assert ch in cu.unmodified ==> ch in cu.unmodified + cu.refreshed + cu.updated + cu.failed;
  }
}
