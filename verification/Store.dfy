/**
 The world cmgr keeps in step: the SQLite tables, the Docker objects and the
 artifact directory, and the calls that change them one at a time.

 Rows that SQLite removes by cascade are nested in the row that owns them: an
 instance carries its `containers` and `portAssignments` rows, a build its
 `images` and `lookupData` rows.  A transaction is a pure function from the
 tables to the tables, committed as a whole or not at all.
 */
module Store {

  type ContainerId = nat
  type InstanceId = nat
  type BuildId = nat
  type ChallengeId = string

  const DYNAMIC_INSTANCES := -1
  const LOCKED := -2

  datatype Option<+T> = None | Some(value: T)

  /** What a call into Docker reported. */
  datatype Outcome = Done | NotFound | Busy | Failed

  // ---------------------------------------------------------------- Docker

  /** What a build wrote into its image: its metadata file and the archive of its artifacts,
      which may be empty. */
  datatype BuildFiles = BuildFiles(flag: string, lookups: map<string, string>, tweaks: seq<string>, archive: Option<string>)

  /** An image, the source digest of the challenge generation it was built from, and what it
      holds for the build to read. */
  datatype Image = Image(id: nat, source: string, files: BuildFiles)

  const NO_IMAGE := Image(0, "", BuildFiles("", map[], [], None))

  /** `<challenge>:<build>-<host>`, preceded by `<qualifier>-` while staged. */
  datatype TagName = TagName(challenge: ChallengeId, build: BuildId, host: string, qualifier: string)

  datatype ArtifactName =
    | Canonical(build: BuildId)
    | Staged(qualifier: string, build: BuildId)
    | Backup(qualifier: string, build: BuildId)

  /** `names` are the names it publishes.  `binds` holds the host ports requested at creation; a
      name without an entry takes whichever port Docker picks, at each start anew. */
  datatype Container = Container(image: Image, names: set<string>, binds: map<string, nat>)

  // ---------------------------------------------------------------- tables

  /** `ports` are the published names this host exposes. */
  datatype HostImage = HostImage(host: string, ports: set<string>)

  /** What a successful build leaves in the `builds`, `images` and `lookupData` rows.
      `source` is a history variable: the source digest that was built. */
  datatype BuildOutput = BuildOutput(
    flag: string, lookups: map<string, string>, tweaks: seq<string>,
    images: seq<HostImage>, hasArtifacts: bool, source: string)

  datatype Build = Build(
    schema: string, format: string, challenge: ChallengeId, seed: int,
    instanceCount: int, lastSolved: int, output: BuildOutput)

  /** The `portAssignments` and `containers` rows of one instance. */
  datatype Runtime = Runtime(ports: map<string, nat>, containers: set<ContainerId>)

  datatype Instance = Instance(build: BuildId, lastSolved: int, runtime: Runtime)

  datatype Endpoint = Endpoint(host: string, port: int)

  /** `portMap` gives the endpoint of every published name; `rest` stands for the columns and
      child rows that no protocol reads. */
  datatype Challenge = Challenge(
    sourceDigest: string, metadataDigest: string, solveScript: bool,
    challengeType: string, options: string, seccomp: string,
    hosts: seq<string>, portMap: map<string, Endpoint>, rest: string)

  datatype Db = Db(
    challenges: map<ChallengeId, Challenge>,
    schemas: map<string, bool>,
    builds: map<BuildId, Build>,
    instances: map<InstanceId, Instance>,
    retired: set<ContainerId>,
    retiredNetworks: set<InstanceId>)

  /** `picked` holds the ports Docker picked itself when a container was last started. */
  datatype World = World(
    db: Db,
    containers: map<ContainerId, Container>,
    running: set<ContainerId>,
    picked: map<ContainerId, map<string, nat>>,
    tags: map<TagName, Image>,
    artifacts: map<ArtifactName, string>,
    nextId: ContainerId)

  const BUILDER := "builder"

  /** The images an instance runs: every host but the builder. */
  function RuntimeImages(images: seq<HostImage>): nat {
    if images == [] then 0
    else (if images[0].host == BUILDER then 0 else 1) + RuntimeImages(images[1..])
  }

  // ----------------------------------------------------------- constraints

  /** `portAssignmentsPortIndex` and `portAssignmentsNameIndex`: a host port has one owner. */
  predicate UniquePorts(instances: map<InstanceId, Instance>) {
    forall i, j, n, k | i in instances && j in instances && n in instances[i].runtime.ports && k in instances[j].runtime.ports ::
      instances[i].runtime.ports[n] == instances[j].runtime.ports[k] ==> i == j && n == k
  }

  predicate PortsInRange(instances: map<InstanceId, Instance>) {
    forall i, n | i in instances && n in instances[i].runtime.ports :: 0 < instances[i].runtime.ports[n] < 65536
  }

  /** The primary key of `containers`. */
  predicate UniqueContainers(instances: map<InstanceId, Instance>) {
    forall i, j, c | i in instances && j in instances && c in instances[i].runtime.containers ::
      c in instances[j].runtime.containers ==> i == j
  }

  /** Unique (schema, format, challenge, seed). */
  predicate UniqueBuilds(builds: map<BuildId, Build>) {
    forall a, b | a in builds && b in builds :: BuildKey(builds[a]) == BuildKey(builds[b]) ==> a == b
  }

  function BuildKey(b: Build): (string, string, ChallengeId, int) {
    (b.schema, b.format, b.challenge, b.seed)
  }

  /** Foreign keys of `instances` and `builds` (both ON DELETE RESTRICT). */
  predicate ForeignKeys(db: Db) {
    && (forall i | i in db.instances :: db.instances[i].build in db.builds)
    && (forall b | b in db.builds :: db.builds[b].challenge in db.challenges)
  }

  /** The primary key of `hosts`. */
  predicate DistinctHosts(hosts: seq<string>) {
    forall a, b | 0 <= a < b < |hosts| :: hosts[a] != hosts[b]
  }

  /** `portNamesEndpointIndex`, and the foreign key from published names to hosts. */
  predicate DistinctEndpoints(c: Challenge) {
    && (forall n | n in c.portMap :: c.portMap[n].host in c.hosts)
    && (forall n, k | n in c.portMap && k in c.portMap :: c.portMap[n] == c.portMap[k] ==> n == k)
  }

  predicate Recordable(c: Challenge) {
    DistinctHosts(c.hosts) && DistinctEndpoints(c)
  }

  /** `imagesHostIndex`. */
  predicate OneImagePerHost(images: seq<HostImage>) {
    forall a, b | 0 <= a < b < |images| :: images[a].host != images[b].host
  }

  /** What SQLite checks before a transaction commits. */
  predicate Constraints(db: Db) {
    && UniquePorts(db.instances)
    && PortsInRange(db.instances)
    && UniqueContainers(db.instances)
    && UniqueBuilds(db.builds)
    && ForeignKeys(db)
    && (forall k | k in db.challenges :: Recordable(db.challenges[k]))
    && (forall b | b in db.builds :: OneImagePerHost(db.builds[b].output.images))
  }

  lemma RetiredIsUnconstrained(db: Db, retired: set<ContainerId>)
    ensures Constraints(db) ==> Constraints(db.(retired := retired))
  {
  }

  /** The id SQLite gives the next row: one more than the largest there is, so it may have
      belonged to a row that is gone. */
  predicate IsNext(ids: set<InstanceId>, i: InstanceId) {
    && i > 0 && (forall j | j in ids :: j < i)
    && (i == 1 || i - 1 in ids)
  }

  // -------------------------------------------------------- Docker effects

  function WithoutContainers(w: World, ids: set<ContainerId>): World {
    w.(containers := w.containers - ids, running := w.running - ids, picked := w.picked - ids)
  }

  /** The host port a container has for a name while it runs. */
  predicate Holds(w: World, c: ContainerId, n: string)
    requires c in w.containers
  {
    n in w.containers[c].names && (n in w.containers[c].binds || (c in w.picked && n in w.picked[c]))
  }

  function HeldPort(w: World, c: ContainerId, n: string): nat
    requires c in w.containers && Holds(w, c, n)
  {
    if n in w.containers[c].binds then w.containers[c].binds[n] else w.picked[c][n]
  }

  /** No other running container holds a host port that `id` asks for. */
  predicate PortsFree(w: World, id: ContainerId)
    requires id in w.containers
  {
    var binds := w.containers[id].binds;
    && (forall n, k | n in binds && k in binds :: binds[n] == binds[k] ==> n == k)
    && (forall r, n, k | r in w.running && r in w.containers && r != id && n in binds && k in w.containers[r].names && Holds(w, r, k) ::
          HeldPort(w, r, k) != binds[n])
  }

  /** The ports of every committed `portAssignments` row. */
  function UsedPorts(db: Db): (used: set<nat>)
    ensures forall p :: p in used <==> exists i, n :: i in db.instances && n in db.instances[i].runtime.ports && db.instances[i].runtime.ports[n] == p
  {
    set i, n | i in db.instances && n in db.instances[i].runtime.ports :: db.instances[i].runtime.ports[n]
  }

  /** The host ports of all running containers. */
  function HeldPorts(w: World): (held: set<nat>)
    ensures forall p :: p in held <==> exists c, n :: c in w.running && c in w.containers && n in w.containers[c].names && Holds(w, c, n) && HeldPort(w, c, n) == p
  {
    set c, n | c in w.running && c in w.containers && n in w.containers[c].names && Holds(w, c, n) :: HeldPort(w, c, n)
  }

  /** The ports that are neither held nor on record. */
  function LeftPorts(w: World): set<nat> {
    set p | 1 <= p < 65536 && p !in UsedPorts(w.db) && p !in HeldPorts(w)
  }

  /** Docker may pick any ports for the names it was not asked one for. */
  predicate Picks(c: Container, ports: map<string, nat>) {
    ports.Keys == c.names - c.binds.Keys
  }

  /** `d` is `s` with `id` started. */
  predicate IsStarted(s: World, d: World, id: ContainerId) {
    && id in s.containers && id in d.picked && Picks(s.containers[id], d.picked[id])
    && d == s.(running := s.running + {id}, picked := s.picked[id := d.picked[id]])
  }

  /** One that runs already is left alone. */
  predicate StartedOrRan(s: World, d: World, id: ContainerId) {
    if id in s.running then d == s else IsStarted(s, d, id)
  }

  /** Different ports out of `left`. */
  predicate PickedFrom(left: set<nat>, ports: map<string, nat>) {
    && (forall n | n in ports :: ports[n] in left)
    && (forall n, k | n in ports && k in ports && n != k :: ports[n] != ports[k])
  }

  /** While there are enough, what is picked is different ports that nobody has. */
  ghost predicate PicksWell(w: World, id: ContainerId, ports: map<string, nat>)
    requires id in w.containers
  {
    |w.containers[id].names - w.containers[id].binds.Keys| <= |LeftPorts(w)| ==> PickedFrom(LeftPorts(w), ports)
  }

  method PickPorts(names: set<string>, left: set<nat>) returns (ports: map<string, nat>)
    ensures ports.Keys <= names
    ensures |names| <= |left| ==> ports.Keys == names && PickedFrom(left, ports)
  {
    ports := map[];
    var todo, free := names, left;
    while todo != {} && free != {}
      invariant todo <= names && free <= left && ports.Keys == names - todo
      invariant |names| <= |left| ==> |todo| <= |free|
      invariant PickedFrom(left, ports) && forall n | n in ports :: ports[n] !in free
    {
      var n :| n in todo;
      var p :| p in free;
      ports, todo, free := ports[n := p], todo - {n}, free - {p};
    }
  }

  /**
   The manager's hold on the world.  Every method below is one call into SQLite,
   Docker or the file system, so a process can die exactly between two of them:
   `crashPoints` collects every world that was ever visible to a crash.

   On a `reliable` manager each call does what it is asked whenever the world
   allows it; otherwise it may also fail for no visible reason.  On a `fortunate` one all that
   is up to others goes well: files can be read, images build and yield a flag, containers stay
   up and report their ports, limits and locks refuse nothing, and Docker picks ports that
   nobody has as long as there are enough.
   */
  class Manager {
    var world: World
    ghost var crashPoints: set<World>
    const reliable: bool
    const fortunate: bool
    const portLow: nat
    const portHigh: nat

    constructor (initial: World, reliable: bool, fortunate: bool, portLow: nat, portHigh: nat)
      ensures world == initial && crashPoints == {initial}
      ensures this.reliable == reliable && this.fortunate == fortunate && this.portLow == portLow && this.portHigh == portHigh
    {
      this.fortunate := fortunate;
      world := initial;
      crashPoints := {initial};
      this.reliable := reliable;
      this.portLow := portLow;
      this.portHigh := portHigh;
    }

    /** Whether something goes well that lies with others. */
    method Outside() returns (ok: bool)
      ensures fortunate ==> ok
    {
      var bad: bool := *;
      ok := fortunate || !bad;
    }

    /** Runs the build of one image. */
    method ImageBuild(source: string) returns (image: Option<Image>)
      ensures image.Some? ==> image.value.source == source
      ensures fortunate ==> image.Some? && image.value.files.flag != ""
    {
      var failed: bool, id: nat, files: BuildFiles := *, *, *;
      if fortunate && files.flag == "" {
        files := files.(flag := "flag");
      }
      image := if failed && !fortunate then None else Some(Image(id, source, files));
    }

    /** A transaction that would leave the tables as `next`. */
    method Commit(next: Db) returns (ok: bool)
      modifies this
      ensures ok ==> Constraints(next) && world == old(world).(db := next)
      ensures !ok ==> world == old(world)
      ensures reliable && Constraints(next) ==> ok
      ensures crashPoints == old(crashPoints) + {world}
    {
      var fault: bool := *;
      ok := Constraints(next) && (reliable || !fault);
      if ok {
        world := world.(db := next);
      }
      crashPoints := crashPoints + {world};
    }

    /** A read of the tables; only a faulty database refuses it. */
    method Query() returns (ok: bool)
      ensures reliable ==> ok
    {
      var fault: bool := *;
      ok := reliable || !fault;
    }

    method ContainerCreate(tag: TagName, names: set<string>, binds: map<string, nat>) returns (id: Option<ContainerId>)
      modifies this
      ensures id.Some? ==>
        && id.value == old(world).nextId
        && tag in old(world).tags
        && world == old(world).(containers := old(world).containers[id.value := Container(old(world).tags[tag], names, binds)],
                                nextId := id.value + 1)
      ensures id.None? ==> world == old(world)
      ensures reliable && tag in old(world).tags ==> id.Some?
      ensures crashPoints == old(crashPoints) + {world}
    {
      var fault: bool := *;
      if tag in world.tags && (reliable || !fault) {
        id := Some(world.nextId);
        world := world.(containers := world.containers[world.nextId := Container(world.tags[tag], names, binds)],
                        nextId := world.nextId + 1);
      } else {
        id := None;
      }
      crashPoints := crashPoints + {world};
    }

    /** The ports Docker picks for a container. */
    method Pick(id: ContainerId) returns (ports: map<string, nat>)
      requires id in world.containers
      ensures Picks(world.containers[id], ports)
      ensures fortunate ==> PicksWell(world, id, ports)
    {
      var names := world.containers[id].names - world.containers[id].binds.Keys;
      var any: map<string, nat> := *;
      ports := map n | n in names :: if n in any then any[n] else 0;
      if fortunate && |names| <= |LeftPorts(world)| {
        ports := PickPorts(names, LeftPorts(world));
      }
    }

    /** One that reports an error may still have started the container. */
    method ContainerStart(id: ContainerId) returns (r: Outcome)
      modifies this
      ensures r == Done ==>
        id in old(world).containers && (id in old(world).running || PortsFree(old(world), id)) && StartedOrRan(old(world), world, id)
      ensures r == NotFound || r == Busy ==> world == old(world)
      ensures world == old(world) ||
        (id in old(world).containers && id !in old(world).running && PortsFree(old(world), id) && IsStarted(old(world), world, id))
      ensures r == NotFound ==> id !in old(world).containers
      ensures r == Busy ==> id in old(world).containers && !PortsFree(old(world), id)
      ensures reliable && id in old(world).containers && PortsFree(old(world), id) ==> r == Done
      ensures r == Failed ==> !reliable
      ensures fortunate && world != old(world) ==> PicksWell(old(world), id, world.picked[id])
      ensures crashPoints == old(crashPoints) + {world}
    {
      hide PortsFree, PicksWell;
      var fault: bool, started: bool := *, *;
      if id !in world.containers {
        r := NotFound;
      } else if id in world.running {
        r := if !reliable && fault then Failed else Done;
      } else if !PortsFree(world, id) {
        r := Busy;
      } else {
        r := if !reliable && fault then Failed else Done;
        if r == Done || started {
          var ports := Pick(id);
          world := world.(running := world.running + {id}, picked := world.picked[id := ports]);
        }
      }
      crashPoints := crashPoints + {world};
    }

    /** One that reports an error may still have stopped the container. */
    method ContainerStop(id: ContainerId) returns (r: Outcome)
      modifies this
      ensures r == Done ==> id in old(world).containers && world == old(world).(running := old(world).running - {id})
      ensures r != Done ==> world == old(world) || (!reliable && world == old(world).(running := old(world).running - {id}))
      ensures r == NotFound ==> id !in old(world).containers && world == old(world)
      ensures reliable && id in old(world).containers ==> r == Done
      ensures crashPoints == old(crashPoints) + {world}
    {
      var fault: bool, stopped: bool := *, *;
      if id !in world.containers {
        r := NotFound;
      } else if !reliable && fault {
        r := Failed;
        if stopped {
          world := world.(running := world.running - {id});
        }
      } else {
        r := Done;
        world := world.(running := world.running - {id});
      }
      crashPoints := crashPoints + {world};
    }

    method ContainerInspect(id: ContainerId) returns (r: Outcome, isRunning: bool)
      ensures r == Done ==> id in world.containers && isRunning == (id in world.running)
      ensures r == NotFound ==> id !in world.containers
      ensures reliable ==> r == Done || r == NotFound
    {
      var fault: bool := *;
      isRunning := id in world.running;
      r := if !reliable && fault then Failed else if id in world.containers then Done else NotFound;
    }

    /** A forced removal.  One that reports an error may still have removed the container. */
    method ContainerRemove(id: ContainerId) returns (r: Outcome)
      modifies this
      ensures r != Busy
      ensures r == NotFound ==> id !in old(world).containers && world == old(world)
      ensures r == Done ==> id in old(world).containers && world == WithoutContainers(old(world), {id})
      ensures r == Failed ==>
        && !reliable
        && (world == old(world) || (id in old(world).containers && world == WithoutContainers(old(world), {id})))
      ensures crashPoints == old(crashPoints) + {world}
    {
      var fault: bool, lost: bool := *, *;
      if !reliable && fault {
        r := Failed;
        if lost && id in world.containers {
          world := WithoutContainers(world, {id});
        }
      } else if id in world.containers {
        r := Done;
        world := WithoutContainers(world, {id});
      } else {
        r := NotFound;
      }
      crashPoints := crashPoints + {world};
    }

    /** Networks are named after their instance and hold nothing the model needs. */
    method NetworkCreate(i: InstanceId) returns (ok: bool)
      ensures reliable ==> ok
    {
      var fault: bool := *;
      ok := reliable || !fault;
    }

    /** Done or not found. */
    method NetworkRemove(i: InstanceId) returns (ok: bool)
      ensures reliable ==> ok
    {
      var fault: bool := *;
      ok := reliable || !fault;
    }

    method ImageInspect(name: TagName) returns (r: Outcome, image: Image)
      ensures r == Done ==> name in world.tags && image == world.tags[name]
      ensures r == NotFound ==> name !in world.tags
      ensures reliable ==> r == Done || r == NotFound
    {
      var fault: bool := *;
      image := NO_IMAGE;
      if !reliable && fault {
        r := Failed;
      } else if name in world.tags {
        r, image := Done, world.tags[name];
      } else {
        r := NotFound;
      }
    }

    /** Points `target` at an image.  One that reports an error may still have moved the tag. */
    method ImageTag(image: Image, target: TagName) returns (ok: bool)
      modifies this
      ensures ok ==> world == old(world).(tags := old(world).tags[target := image])
      ensures !ok ==> world == old(world) || world == old(world).(tags := old(world).tags[target := image])
      ensures reliable ==> ok
      ensures crashPoints == old(crashPoints) + {world}
    {
      var fault: bool, moved: bool := *, *;
      ok := reliable || !fault;
      if ok || moved {
        world := world.(tags := world.tags[target := image]);
      }
      crashPoints := crashPoints + {world};
    }

    /** One that reports an error other than not-found may still have removed the tag. */
    method ImageRemove(name: TagName) returns (r: Outcome)
      modifies this
      ensures r != Busy
      ensures r == Done || r == NotFound ==> world == old(world).(tags := old(world).tags - {name})
      ensures r == Failed ==> !reliable && (world == old(world) || world == old(world).(tags := old(world).tags - {name}))
      ensures crashPoints == old(crashPoints) + {world}
    {
      var fault: bool, lost: bool := *, *;
      if !reliable && fault {
        r := Failed;
        if lost {
          world := world.(tags := world.tags - {name});
        }
      } else {
        r := if name in world.tags then Done else NotFound;
        world := world.(tags := world.tags - {name});
      }
      crashPoints := crashPoints + {world};
    }

    method FileExists(name: ArtifactName) returns (r: Outcome)
      ensures r == Done ==> name in world.artifacts
      ensures r == NotFound ==> name !in world.artifacts
      ensures reliable ==> r == Done || r == NotFound
    {
      var fault: bool := *;
      r := if !reliable && fault then Failed else if name in world.artifacts then Done else NotFound;
    }

    /** A rename within the artifact directory is atomic. */
    method FileRename(source: ArtifactName, target: ArtifactName) returns (ok: bool)
      requires source != target
      modifies this
      ensures ok ==>
        && source in old(world).artifacts
        && world == old(world).(artifacts := old(world).artifacts[target := old(world).artifacts[source]] - {source})
      ensures !ok ==> world == old(world)
      ensures reliable && source in old(world).artifacts ==> ok
      ensures crashPoints == old(crashPoints) + {world}
    {
      var fault: bool := *;
      ok := source in world.artifacts && (reliable || !fault);
      if ok {
        world := world.(artifacts := world.artifacts[target := world.artifacts[source]] - {source});
      }
      crashPoints := crashPoints + {world};
    }

    method FileRemove(name: ArtifactName) returns (r: Outcome)
      modifies this
      ensures r != Busy
      ensures r == Done || r == NotFound ==> world == old(world).(artifacts := old(world).artifacts - {name})
      ensures r == Failed ==> !reliable && world == old(world)
      ensures crashPoints == old(crashPoints) + {world}
    {
      var fault: bool := *;
      if !reliable && fault {
        r := Failed;
      } else {
        r := if name in world.artifacts then Done else NotFound;
        world := world.(artifacts := world.artifacts - {name});
      }
      crashPoints := crashPoints + {world};
    }

    /** Replaces the contents of one artifact file. */
    method FileWrite(name: ArtifactName, contents: string) returns (ok: bool)
      modifies this
      ensures ok ==> world == old(world).(artifacts := old(world).artifacts[name := contents])
      ensures !ok ==> world == old(world)
      ensures reliable ==> ok
      ensures crashPoints == old(crashPoints) + {world}
    {
      var fault: bool := *;
      ok := reliable || !fault;
      if ok {
        world := world.(artifacts := world.artifacts[name := contents]);
      }
      crashPoints := crashPoints + {world};
    }
  }
}
