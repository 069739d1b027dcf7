/** Building the images of one build and reading what the build left behind (docker.go). */
module Building {
  import opened Store
  import opened Instances
  import opened Containers
  import opened Promotion

  /** A published name belongs to one host, so no two images expose it. */
  lemma ImagesShareNoName(hosts: seq<string>, portMap: map<string, Endpoint>)
    requires DistinctHosts(hosts)
    ensures DistinctImages(ImagesOf(hosts, portMap))
  {
    var images := ImagesOf(hosts, portMap);
    forall a, b, n | 0 <= a < b < |images| && n in images[a].ports
      ensures n !in images[b].ports
    {
      assert portMap[n].host == hosts[a];
    }
  }

  /** Besides staged names, a build only creates containers it has recorded as retired, and
      starts none. */
  ghost predicate Built(s: World, d: World, challenge: ChallengeId, b: BuildId, hosts: seq<string>, qualifier: string) {
    && StagedOnly(s, d, challenge, b, hosts, qualifier) && d.running == s.running
    && Grown(s.(tags := d.tags, artifacts := d.artifacts), d)
  }

  /** Nothing but staged names and the next id differ. */
  ghost predicate BuiltCleanly(s: World, d: World, challenge: ChallengeId, b: BuildId, hosts: seq<string>, qualifier: string) {
    && StagedOnly(s, d, challenge, b, hosts, qualifier)
    && d == s.(tags := d.tags, artifacts := d.artifacts, nextId := d.nextId)
    && s.nextId <= d.nextId
  }

  ghost predicate AllStaged(tags: map<TagName, Image>, challenge: ChallengeId, b: BuildId, hosts: seq<string>, qualifier: string, source: string) {
    forall h | h in hosts ::
      && StagedTag(challenge, b, h, qualifier) in tags
      && tags[StagedTag(challenge, b, h, qualifier)].source == source
  }

  lemma BuiltStart(s: World, challenge: ChallengeId, b: BuildId, hosts: seq<string>, qualifier: string)
    requires IdsIssued(s)
    ensures BuiltCleanly(s, s, challenge, b, hosts, qualifier)
  {
  }

  lemma BuiltTag(s: World, mid: World, challenge: ChallengeId, b: BuildId, hosts: seq<string>, qualifier: string, k: nat, image: Image)
    requires k < |hosts| && BuiltCleanly(s, mid, challenge, b, hosts, qualifier)
    requires AllStaged(mid.tags, challenge, b, hosts[..k], qualifier, image.source)
    ensures
      var d := mid.(tags := mid.tags[StagedTag(challenge, b, hosts[k], qualifier) := image]);
      && BuiltCleanly(s, d, challenge, b, hosts, qualifier)
      && AllStaged(d.tags, challenge, b, hosts[..k + 1], qualifier, image.source)
  {
  }

  lemma CleanIsBuilt(s: World, challenge: ChallengeId, b: BuildId, hosts: seq<string>, qualifier: string)
    requires IdsIssued(s)
    ensures forall d :: BuiltCleanly(s, d, challenge, b, hosts, qualifier) ==> Built(s, d, challenge, b, hosts, qualifier) && IdsIssued(d)
  {
    forall d | BuiltCleanly(s, d, challenge, b, hosts, qualifier)
      ensures Built(s, d, challenge, b, hosts, qualifier) && IdsIssued(d)
    {
      var s' := s.(tags := d.tags, artifacts := d.artifacts);
      assert Grown(s', d);
    }
  }

  /** The image whose file system holds the build's output: the builder's if there is one,
      else the challenge's. */
  ghost predicate IsBuildHost(hosts: seq<string>, source: Option<string>) {
    match source
    case Some(host) => host in hosts && (host == "builder" || (host == "challenge" && "builder" !in hosts))
    case None => "builder" !in hosts && "challenge" !in hosts
  }

  /** Every staged image has a flag to read. */
  ghost predicate AllYield(tags: map<TagName, Image>, challenge: ChallengeId, b: BuildId, hosts: seq<string>, qualifier: string) {
    forall h | h in hosts :: StagedTag(challenge, b, h, qualifier) in tags && tags[StagedTag(challenge, b, h, qualifier)].files.flag != ""
  }

  /** Builds the image of every host, listing the published names that each exposes. */
  method BuildImages(m: Manager, c: Challenge, challenge: ChallengeId, b: BuildId, qualifier: string)
    returns (ok: bool, images: seq<HostImage>, source: Option<string>)
    requires IdsIssued(m.world)
    modifies m
    ensures BuiltCleanly(old(m.world), m.world, challenge, b, c.hosts, qualifier)
    ensures ok ==> AllStaged(m.world.tags, challenge, b, c.hosts, qualifier, c.sourceDigest)
    ensures ok ==> Exposes(images, c.hosts, c.portMap) && IsBuildHost(c.hosts, source)
    ensures m.fortunate && ok ==> AllYield(m.world.tags, challenge, b, c.hosts, qualifier)
    ensures m.reliable && m.fortunate ==> ok
    ensures old(m.crashPoints) <= m.crashPoints
    ensures forall d | d in m.crashPoints :: d in old(m.crashPoints) || BuiltCleanly(old(m.world), d, challenge, b, c.hosts, qualifier)
  {
    hide BuiltCleanly, AllStaged, AllYield, IdsIssued, StagedOnly;
    var hosts := c.hosts;
    ghost var s := m.world;
    BuiltStart(s, challenge, b, hosts, qualifier);
    NoneStaged(s.tags, challenge, b, qualifier, c.sourceDigest);
    images, source := [], None;
    assert hosts[..0] == [];
    for k := 0 to |hosts|
      invariant BuiltCleanly(s, m.world, challenge, b, hosts, qualifier)
      invariant AllStaged(m.world.tags, challenge, b, hosts[..k], qualifier, c.sourceDigest)
      invariant m.fortunate ==> AllYield(m.world.tags, challenge, b, hosts[..k], qualifier)
      invariant Exposes(images, hosts[..k], c.portMap) && IsBuildHost(hosts[..k], source)
      invariant old(m.crashPoints) <= m.crashPoints
      invariant forall d | d in m.crashPoints :: d in old(m.crashPoints) || BuiltCleanly(s, d, challenge, b, hosts, qualifier)
    {
      assert hosts[..k + 1] == hosts[..k] + [hosts[k]];
      if hosts[k] == BUILDER || (hosts[k] == "challenge" && source == None) {
        source := Some(hosts[k]);
      }
      var ports: set<string> := {};
      var names := c.portMap.Keys;
      while names != {}
        invariant names <= c.portMap.Keys
        invariant forall n :: n in ports <==> n in c.portMap && n !in names && c.portMap[n].host == hosts[k]
      {
        var n :| n in names;
        names := names - {n};
        if c.portMap[n].host == hosts[k] {
          ports := ports + {n};
        }
      }
      images := images + [HostImage(hosts[k], ports)];
      var image := m.ImageBuild(c.sourceDigest);
      if image.None? {
        return false, images, source;
      }
      BuiltTag(s, m.world, challenge, b, hosts, qualifier, k, image.value);
      if m.fortunate { YieldsTag(m.world.tags, challenge, b, hosts, qualifier, k, image.value); }
      var tagged := m.ImageTag(image.value, StagedTag(challenge, b, hosts[k], qualifier));
      if !tagged {
        return false, images, source;
      }
    }
    assert hosts[..|hosts|] == hosts;
    ok := true;
  }

  lemma NoneStaged(tags: map<TagName, Image>, challenge: ChallengeId, b: BuildId, qualifier: string, source: string)
    ensures AllStaged(tags, challenge, b, [], qualifier, source) && AllYield(tags, challenge, b, [], qualifier)
  {
  }

  lemma YieldsTag(tags: map<TagName, Image>, challenge: ChallengeId, b: BuildId, hosts: seq<string>, qualifier: string, k: nat, image: Image)
    requires k < |hosts| && AllYield(tags, challenge, b, hosts[..k], qualifier) && image.files.flag != ""
    ensures AllYield(tags[StagedTag(challenge, b, hosts[k], qualifier) := image], challenge, b, hosts[..k + 1], qualifier)
  {
  }

  // ------------------------------------------- the container of the output

  /** The containers in `ids` were created on top of staged names. */
  ghost predicate BuiltWith(s: World, d: World, challenge: ChallengeId, b: BuildId, hosts: seq<string>, qualifier: string, ids: set<ContainerId>) {
    && StagedOnly(s, d, challenge, b, hosts, qualifier) && d.running == s.running
    && GrownBy(s.(tags := d.tags, artifacts := d.artifacts), d, ids)
  }

  lemma BuiltWithIsBuilt(s: World, challenge: ChallengeId, b: BuildId, hosts: seq<string>, qualifier: string, ids: set<ContainerId>)
    ensures forall d :: BuiltWith(s, d, challenge, b, hosts, qualifier, ids) ==> Built(s, d, challenge, b, hosts, qualifier)
  {
  }

  lemma BuiltWithCreated(s: World, w: World, challenge: ChallengeId, b: BuildId, hosts: seq<string>, qualifier: string, image: Image)
    requires IdsIssued(s) && BuiltCleanly(s, w, challenge, b, hosts, qualifier)
    ensures BuiltWith(s, w, challenge, b, hosts, qualifier, {})
    ensures BuiltWith(s, Created(w, Container(image, {}, map[])), challenge, b, hosts, qualifier, {w.nextId})
    ensures BuiltWith(s, Recorded(Created(w, Container(image, {}, map[])), w.nextId), challenge, b, hosts, qualifier, {w.nextId})
  {
    hide StagedOnly, Grown, GrownBy;
    var s' := s.(tags := w.tags, artifacts := w.artifacts);
    CleanIds(s, w, challenge, b, hosts, qualifier);
    GrowNone(w);
    GrowCreated(w, Container(image, {}, map[]));
    GrowRecorded(w, Container(image, {}, map[]));
    GrownFromLater(s', w, {});
    GrownFromLater(s', w, {w.nextId});
    StagedOnlyTagsMatter(s, challenge, b, hosts, qualifier);
  }

  lemma CleanIds(s: World, w: World, challenge: ChallengeId, b: BuildId, hosts: seq<string>, qualifier: string)
    requires IdsIssued(s) && BuiltCleanly(s, w, challenge, b, hosts, qualifier)
    ensures IdsIssued(w)
  {
    hide StagedOnly;
  }

  /** Ids may be used up before anything grows. */
  lemma GrownFromLater(s: World, w: World, ids: set<ContainerId>)
    requires w == s.(nextId := w.nextId) && s.nextId <= w.nextId
    ensures forall d :: GrownBy(w, d, ids) ==> GrownBy(s, d, ids)
  {
    forall d | GrownBy(w, d, ids)
      ensures GrownBy(s, d, ids)
    {
    }
  }

  lemma StagedOnlyTagsMatter(s: World, challenge: ChallengeId, b: BuildId, hosts: seq<string>, qualifier: string)
    ensures forall d: World, d': World :: StagedOnly(s, d, challenge, b, hosts, qualifier) && d'.tags == d.tags && d'.artifacts == d.artifacts ==>
      StagedOnly(s, d', challenge, b, hosts, qualifier)
  {
  }

  /** Writing or dropping staged names changes nothing else about what was built. */
  lemma BuiltWithNames(s: World, w: World, challenge: ChallengeId, b: BuildId, hosts: seq<string>, qualifier: string, ids: set<ContainerId>)
    requires BuiltWith(s, w, challenge, b, hosts, qualifier, ids)
    ensures forall d ::
      StagedOnly(s, d, challenge, b, hosts, qualifier) && d == w.(tags := d.tags, artifacts := d.artifacts) ==>
      BuiltWith(s, d, challenge, b, hosts, qualifier, ids)
  {
    hide StagedOnly;
  }

  lemma StagedFile(s: World, w: World, challenge: ChallengeId, b: BuildId, hosts: seq<string>, qualifier: string, text: string)
    requires StagedOnly(s, w, challenge, b, hosts, qualifier)
    ensures StagedOnly(s, w.(artifacts := w.artifacts[ArtifactFor(qualifier, b) := text]), challenge, b, hosts, qualifier)
    ensures StagedOnly(s, w.(artifacts := w.artifacts - {ArtifactFor(qualifier, b)}), challenge, b, hosts, qualifier)
  {
  }

  lemma StagedTagsGone(s: World, w: World, challenge: ChallengeId, b: BuildId, hosts: seq<string>, qualifier: string, ids: set<ContainerId>)
    requires BuiltWith(s, w, challenge, b, hosts, qualifier, ids)
    ensures forall d :: StagedTagsDropped(w, d, challenge, b, qualifier, hosts) ==>
      BuiltWith(s, d, challenge, b, hosts, qualifier, ids) && Built(s, d, challenge, b, hosts, qualifier)
  {
    hide Grown, GrownBy;
    GrownByIsGrown(s, ids);
    forall d | StagedTagsDropped(w, d, challenge, b, qualifier, hosts)
      ensures BuiltWith(s, d, challenge, b, hosts, qualifier, ids) && Built(s, d, challenge, b, hosts, qualifier)
    {
      StagedTagsStayStaged(s, w, d, challenge, b, hosts, qualifier);
      BuiltWithNames(s, w, challenge, b, hosts, qualifier, ids);
      BuiltWithIsBuilt(s, challenge, b, hosts, qualifier, ids);
    }
  }

  lemma StagedTagsStayStaged(s: World, w: World, d: World, challenge: ChallengeId, b: BuildId, hosts: seq<string>, qualifier: string)
    requires StagedOnly(s, w, challenge, b, hosts, qualifier)
    requires StagedTagsDropped(w, d, challenge, b, qualifier, hosts)
    ensures StagedOnly(s, d, challenge, b, hosts, qualifier)
  {
  }

  lemma BuiltThenReaped(s: World, w: World, challenge: ChallengeId, b: BuildId, hosts: seq<string>, qualifier: string, ids: set<ContainerId>)
    requires IdsIssued(s) && BuiltWith(s, w, challenge, b, hosts, qualifier, ids)
    ensures forall d :: Reaped(w, d, ids) ==>
      && Built(s, d, challenge, b, hosts, qualifier)
      && (ids !! d.containers.Keys && ids !! d.db.retired ==> BuiltCleanly(s, d, challenge, b, hosts, qualifier))
  {
    hide StagedOnly, Grown, IdsIssued;
    var s' := s.(tags := w.tags, artifacts := w.artifacts);
    IdsIgnoreNames(s, s');
    GrownThenReaped(s', w, ids);
    GrownByIsGrown(s', ids);
    StagedOnlyTagsMatter(s, challenge, b, hosts, qualifier);
    forall d | Reaped(w, d, ids)
      ensures
        && Built(s, d, challenge, b, hosts, qualifier)
        && (ids !! d.containers.Keys && ids !! d.db.retired ==> BuiltCleanly(s, d, challenge, b, hosts, qualifier))
    {
      assert d.tags == w.tags && d.artifacts == w.artifacts;
    }
  }

  lemma IdsIgnoreNames(s: World, s': World)
    requires IdsIssued(s) && s' == s.(tags := s'.tags, artifacts := s'.artifacts)
    ensures IdsIssued(s')
  {
  }

  /**
   Copies the output out of a container of the build image.  The container is recorded
   before anything is copied and removed afterwards; `clean` tells whether it is gone.
   */
  method ReadOutput(m: Manager, tag: TagName, challenge: ChallengeId, b: BuildId, hosts: seq<string>, qualifier: string, ghost s: World)
    returns (ok: bool, clean: bool, files: BuildFiles)
    requires IdsIssued(s) && BuiltCleanly(s, m.world, challenge, b, hosts, qualifier)
    modifies m
    ensures Built(s, m.world, challenge, b, hosts, qualifier)
    ensures clean ==> BuiltCleanly(s, m.world, challenge, b, hosts, qualifier)
    ensures ok ==> NewAreRetired(s, m.world)
    ensures m.reliable && Constraints(s.db) ==> clean
    ensures ok ==> files.flag != "" && m.world.tags == old(m.world.tags)
    ensures ok ==> tag in old(m.world.tags) && files == old(m.world.tags)[tag].files && Installed(m.world.artifacts, files, qualifier, b)
    ensures m.reliable && m.fortunate && Constraints(s.db) && tag in old(m.world.tags) && old(m.world.tags)[tag].files.flag != "" ==> ok
    ensures old(m.crashPoints) <= m.crashPoints
    ensures forall d | d in m.crashPoints :: d in old(m.crashPoints) || Built(s, d, challenge, b, hosts, qualifier)
  {
    hide *;
    ghost var w := m.world;
    ghost var image := if tag in w.tags then w.tags[tag] else NO_IMAGE;
    files := NO_IMAGE.files;
    BuiltWithCreated(s, w, challenge, b, hosts, qualifier, image);
    BuiltWithIsBuilt(s, challenge, b, hosts, qualifier, {});
    BuiltWithIsBuilt(s, challenge, b, hosts, qualifier, {w.nextId});
    CreatedIs(w, image);
    var id := m.ContainerCreate(tag, {}, map[]);
    if id.None? {
      return false, true, files;
    }
    CleanTables(s, w, challenge, b, hosts, qualifier);
    RetiredIsUnconstrained(s.db, s.db.retired + {id.value});
    var recorded := m.Commit(m.world.db.(retired := m.world.db.retired + {id.value}));
    ghost var w1 := m.world;
    BuiltThenReaped(s, w1, challenge, b, hosts, qualifier, {id.value});
    if !recorded {
      UnrecordedRemoval(w, w1, id.value, image, s, challenge, b, hosts, qualifier);
      var r := m.ContainerRemove(id.value);
      return false, r == Done || r == NotFound, files;
    }
    files := m.world.containers[id.value].image.files;
    ok := CopyOutput(m, challenge, b, hosts, qualifier, files, s, {id.value});
    ghost var w2 := m.world;
    BuiltThenReaped(s, w2, challenge, b, hosts, qualifier, {id.value});
    BuiltConstraints(s, w2, challenge, b, hosts, qualifier, {id.value});
    clean := RemoveRetiredContainerIDs(m, {id.value});
    ReapedNames(w2, m.world, {id.value});
    StillRetired(s, w2, m.world, challenge, b, hosts, qualifier, id.value);
  }

  /** Every container created since `s` is recorded as retired. */
  ghost predicate NewAreRetired(s: World, d: World) {
    forall c | c in d.containers && c !in s.containers :: c in d.db.retired
  }

  lemma StillRetired(s: World, w: World, d: World, challenge: ChallengeId, b: BuildId, hosts: seq<string>, qualifier: string, id: ContainerId)
    requires BuiltWith(s, w, challenge, b, hosts, qualifier, {id}) && id in w.db.retired && Reaped(w, d, {id})
    ensures NewAreRetired(s, d)
  {
    hide StagedOnly;
    forall c | c in d.containers && c !in s.containers
      ensures c in d.db.retired
    {
      assert c in w.containers;
      assert c == id;
    }
  }

  lemma BuiltConstraints(s: World, w: World, challenge: ChallengeId, b: BuildId, hosts: seq<string>, qualifier: string, ids: set<ContainerId>)
    requires BuiltWith(s, w, challenge, b, hosts, qualifier, ids)
    ensures Constraints(s.db) ==> Constraints(w.db)
  {
    hide Constraints, StagedOnly;
    assert w.db == s.db.(retired := w.db.retired);
    RetiredIsUnconstrained(s.db, w.db.retired);
  }

  lemma CleanTables(s: World, w: World, challenge: ChallengeId, b: BuildId, hosts: seq<string>, qualifier: string)
    requires BuiltCleanly(s, w, challenge, b, hosts, qualifier)
    ensures w.db == s.db
  {
  }


  lemma ReapedNames(w: World, d: World, ids: set<ContainerId>)
    requires Reaped(w, d, ids)
    ensures d.tags == w.tags && d.artifacts == w.artifacts
  {
  }

  lemma CreatedIs(w: World, image: Image)
    ensures
      var c := w.(containers := w.containers[w.nextId := Container(image, {}, map[])], nextId := w.nextId + 1);
      Created(w, Container(image, {}, map[])) == c && Recorded(c, w.nextId) == c.(db := c.db.(retired := c.db.retired + {w.nextId}))
  {
  }

  lemma UnrecordedRemoval(w: World, w1: World, id: ContainerId, image: Image, s: World, challenge: ChallengeId, b: BuildId, hosts: seq<string>, qualifier: string)
    requires IdsIssued(s) && BuiltCleanly(s, w, challenge, b, hosts, qualifier)
    requires id == w.nextId && w1 == Created(w, Container(image, {}, map[]))
    ensures id in w1.containers
    ensures Reaped(w1, w1, {id}) && Reaped(w1, WithoutContainers(w1, {id}), {id})
    ensures BuiltCleanly(s, WithoutContainers(w1, {id}), challenge, b, hosts, qualifier)
  {
    CleanIds(s, w, challenge, b, hosts, qualifier);
    ReapedByRemove(w1, w1, id);
    ReapedByRemove(w1, WithoutContainers(w1, {id}), id);
    var d := WithoutContainers(w1, {id});
    assert d.containers == w.containers;
    assert d.running == w.running;
  }

  /** Caches the artifact archive and validates the output, withdrawing the staged names when
      the output is refused. */
  method CopyOutput(m: Manager, challenge: ChallengeId, b: BuildId, hosts: seq<string>, qualifier: string, files: BuildFiles,
                    ghost s: World, ghost ids: set<ContainerId>)
    returns (ok: bool)
    requires BuiltWith(s, m.world, challenge, b, hosts, qualifier, ids)
    modifies m
    ensures BuiltWith(s, m.world, challenge, b, hosts, qualifier, ids)
    ensures m.world.db == old(m.world.db)
    ensures ok ==> files.flag != "" && m.world.tags == old(m.world.tags) && Installed(m.world.artifacts, files, qualifier, b)
    ensures m.reliable && m.fortunate && files.flag != "" ==> ok
    ensures old(m.crashPoints) <= m.crashPoints
    ensures forall d | d in m.crashPoints :: d in old(m.crashPoints) || Built(s, d, challenge, b, hosts, qualifier)
  {
    hide *;
    BuiltWithIsBuilt(s, challenge, b, hosts, qualifier, ids);
    BuiltWithParts(s, m.world, challenge, b, hosts, qualifier, ids);
    BuiltWithNames(s, m.world, challenge, b, hosts, qualifier, ids);
    if files.archive.Some? {
      StagedFile(s, m.world, challenge, b, hosts, qualifier, files.archive.value);
      ok := m.FileWrite(ArtifactFor(qualifier, b), files.archive.value);
      if !ok {
        return;
      }
      if files.archive.value == "" {
        ghost var full := m.world;
        BuiltWithParts(s, full, challenge, b, hosts, qualifier, ids);
        BuiltWithNames(s, full, challenge, b, hosts, qualifier, ids);
        StagedFile(s, full, challenge, b, hosts, qualifier, "");
        var emptied := m.FileRemove(ArtifactFor(qualifier, b));
        if emptied == Failed {
          return false;
        }
      }
    }
    ghost var w := m.world;
    WrittenIsInstalled(w.artifacts, files, qualifier, b);
    BuiltWithParts(s, w, challenge, b, hosts, qualifier, ids);
    var valid := m.Outside();
    if files.flag == "" {
      return false;
    }
    if !valid {
      StagedFile(s, w, challenge, b, hosts, qualifier, "");
      BuiltWithNames(s, w, challenge, b, hosts, qualifier, ids);
      var _ := m.FileRemove(ArtifactFor(qualifier, b));
      ghost var w1 := m.world;
      StagedTagsGone(s, w1, challenge, b, hosts, qualifier, ids);
      var removed := RemoveStagedTags(m, challenge, b, hosts, qualifier);
      return false;
    }
    ok := true;
  }

  predicate HasArtifacts(files: BuildFiles) {
    files.archive.Some? && files.archive.value != ""
  }

  /** The archive is in place if there is one with anything in it, and not there if it is empty. */
  ghost predicate Installed(artifacts: map<ArtifactName, string>, files: BuildFiles, qualifier: string, b: BuildId) {
    files.archive.Some? ==>
      var name, content := ArtifactFor(qualifier, b), files.archive.value;
      if content == "" then name !in artifacts else name in artifacts && artifacts[name] == content
  }

  lemma WrittenIsInstalled(artifacts: map<ArtifactName, string>, files: BuildFiles, qualifier: string, b: BuildId)
    requires files.archive.Some? && files.archive.value == "" ==> ArtifactFor(qualifier, b) !in artifacts
    requires files.archive.Some? && files.archive.value != "" ==>
      ArtifactFor(qualifier, b) in artifacts && artifacts[ArtifactFor(qualifier, b)] == files.archive.value
    ensures Installed(artifacts, files, qualifier, b)
  {
  }

  lemma BuiltWithParts(s: World, w: World, challenge: ChallengeId, b: BuildId, hosts: seq<string>, qualifier: string, ids: set<ContainerId>)
    requires BuiltWith(s, w, challenge, b, hosts, qualifier, ids)
    ensures StagedOnly(s, w, challenge, b, hosts, qualifier)
  {
  }

  // ------------------------------------------------------------ the build

  /** Builds every image and reads the output.  What is left besides staged names is at most
      the temporary container, recorded as retired. */
  method ExecuteBuild(m: Manager, c: Challenge, challenge: ChallengeId, b: BuildId, qualifier: string)
    returns (ok: bool, clean: bool, output: BuildOutput)
    requires IdsIssued(m.world)
    modifies m
    ensures Built(old(m.world), m.world, challenge, b, c.hosts, qualifier)
    ensures clean ==> BuiltCleanly(old(m.world), m.world, challenge, b, c.hosts, qualifier)
    ensures ok ==> NewAreRetired(old(m.world), m.world)
    ensures ok ==> AllStaged(m.world.tags, challenge, b, c.hosts, qualifier, c.sourceDigest)
    ensures ok ==> output.flag != "" && output.images == ImagesOf(c.hosts, c.portMap) && output.source == c.sourceDigest
    ensures ok && output.hasArtifacts ==> ArtifactFor(qualifier, b) in m.world.artifacts
    ensures ok ==> ReadFromImage(m.world, challenge, b, c.hosts, qualifier, output)
    ensures m.reliable && Constraints(old(m.world.db)) ==> clean
    ensures m.reliable && m.fortunate && Constraints(old(m.world.db)) && ("builder" in c.hosts || "challenge" in c.hosts) ==> ok
    ensures old(m.crashPoints) <= m.crashPoints
    ensures forall d | d in m.crashPoints :: d in old(m.crashPoints) || Built(old(m.world), d, challenge, b, c.hosts, qualifier)
  {
    hide *;
    ghost var s := m.world;
    CleanIsBuilt(s, challenge, b, c.hosts, qualifier);
    output := BuildOutput("", map[], [], [], false, "");
    clean := true;
    var images, source;
    ok, images, source := BuildImages(m, c, challenge, b, qualifier);
    if !ok {
      return;
    }
    ExposesAlike(images, c.hosts, c.portMap);
    BuildHostIs(c.hosts, source);
    if source.None? {
      return false, true, output;
    }
    ghost var w := m.world;
    StagedFrom(w.tags, challenge, b, c.hosts, qualifier, source.value, c.sourceDigest);
    if m.fortunate { YieldsFlag(w.tags, challenge, b, c.hosts, qualifier, source.value); }
    var files;
    ok, clean, files := ReadOutput(m, TagName(challenge, b, source.value, qualifier), challenge, b, c.hosts, qualifier, s);
    output := BuildOutput(files.flag, files.lookups, files.tweaks, images, HasArtifacts(files), c.sourceDigest);
    if ok { OutputRead(m.world, challenge, b, c.hosts, qualifier, source.value, files, output); }
  }

  /** The output is what the build host's image holds, archive included. */
  ghost predicate ReadFromImage(w: World, challenge: ChallengeId, b: BuildId, hosts: seq<string>, qualifier: string, output: BuildOutput) {
    var n := TagName(challenge, b, if "builder" in hosts then "builder" else "challenge", qualifier);
    && ("builder" in hosts || "challenge" in hosts) && n in w.tags
    && output.flag == w.tags[n].files.flag && output.lookups == w.tags[n].files.lookups && output.tweaks == w.tags[n].files.tweaks
    && (output.hasArtifacts <==> w.tags[n].files.archive.Some? && w.tags[n].files.archive.value != "")
    && Installed(w.artifacts, w.tags[n].files, qualifier, b)
  }

  lemma OutputRead(w: World, challenge: ChallengeId, b: BuildId, hosts: seq<string>, qualifier: string, host: string, files: BuildFiles, output: BuildOutput)
    requires IsBuildHost(hosts, Some(host)) && TagName(challenge, b, host, qualifier) in w.tags
    requires files == w.tags[TagName(challenge, b, host, qualifier)].files && Installed(w.artifacts, files, qualifier, b)
    requires output == BuildOutput(files.flag, files.lookups, files.tweaks, output.images, HasArtifacts(files), output.source)
    ensures ReadFromImage(w, challenge, b, hosts, qualifier, output)
    ensures output.hasArtifacts ==> ArtifactFor(qualifier, b) in w.artifacts
  {
  }

  lemma BuildHostIs(hosts: seq<string>, source: Option<string>)
    requires IsBuildHost(hosts, source)
    ensures source.None? <==> "builder" !in hosts && "challenge" !in hosts
    ensures source.Some? ==> source.value in hosts
  {
  }

  lemma StagedFrom(tags: map<TagName, Image>, challenge: ChallengeId, b: BuildId, hosts: seq<string>, qualifier: string, host: string, source: string)
    requires AllStaged(tags, challenge, b, hosts, qualifier, source) && host in hosts
    ensures TagName(challenge, b, host, qualifier) in tags
  {
  }

  lemma YieldsFlag(tags: map<TagName, Image>, challenge: ChallengeId, b: BuildId, hosts: seq<string>, qualifier: string, host: string)
    requires AllYield(tags, challenge, b, hosts, qualifier) && host in hosts
    ensures TagName(challenge, b, host, qualifier) in tags && tags[TagName(challenge, b, host, qualifier)].files.flag != ""
  {
  }
}
