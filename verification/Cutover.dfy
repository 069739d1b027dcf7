/** Replacing the containers of one running instance, and going back (docker.go). */
module Cutover {
  import opened Store
  import opened Instances
  import opened Placement
  import opened Containers
  import opened Safety

  datatype InstanceCutover = InstanceCutover(instance: InstanceId, old_: Runtime, candidate: Runtime)

  /** `clean` is false when undoing a failed replacement failed as well. */
  datatype CutoverResult = Prepared(cutover: InstanceCutover) | Abandoned(clean: bool)

  /** `d` is `s` again; containers may have been restarted and ids used up since.  What Docker
      picked for a restarted one may be other ports. */
  ghost predicate Same(s: World, d: World) {
    && d == s.(running := d.running, picked := d.picked, nextId := d.nextId)
    && s.running <= d.running
    && s.nextId <= d.nextId
  }

  /** `d` is `s` with the cutover carried out: the instance owns the candidate containers,
      and the previous ones are retired but still exist. */
  ghost predicate Ahead(s: World, d: World, cut: InstanceCutover) {
    && cut.instance in s.db.instances
    && cut.old_ == s.db.instances[cut.instance].runtime
    && cut.old_.containers <= s.containers.Keys
    && s.nextId <= d.nextId
    && (forall c | c in cut.candidate.containers :: s.nextId <= c < d.nextId)
    && Keeps(s.containers, d.containers)
    && d.containers.Keys == s.containers.Keys + cut.candidate.containers
    && cut.candidate.containers <= d.running && s.running - cut.old_.containers <= d.running
    && d == s.(db := ReplaceRuntime(s.db, cut.instance, cut.candidate),
               containers := d.containers, running := d.running, picked := d.picked, nextId := d.nextId)
  }

  /** Besides containers and retired rows, only the runtime of instance `i` changed. */
  ghost predicate OnlyInstance(s: World, d: World, i: InstanceId) {
    && d == s.(db := s.db.(instances := d.db.instances, retired := d.db.retired),
               containers := d.containers, running := d.running, picked := d.picked, nextId := d.nextId)
    && s.nextId <= d.nextId
    && d.db.instances.Keys == s.db.instances.Keys
    && (forall j | j in s.db.instances && j != i :: d.db.instances[j] == s.db.instances[j])
  }

  /** Somebody owns it, and its host ports are those on record. */
  ghost predicate Placed(w: World, c: ContainerId) {
    exists i :: i in w.db.instances && c in w.db.instances[i].runtime.containers && AsRecorded(w, w.db.instances[i].runtime, c)
  }

  /** Nothing that waits for removal is still running, and no port is held that is not on record. */
  ghost predicate Quiet(w: World) {
    forall c | c in w.running :: Placed(w, c)
  }

  /** The containers that instances of the challenge have in `base` ask for all their ports. */
  ghost predicate PortsPinned(base: World, ch: ChallengeId) {
    forall i | Belongs(base.db, i, ch) :: Pinned(base.containers, base.db.instances[i].runtime.containers)
  }

  /** Docker has no reason to refuse to restart what the challenge ran in `base`. */
  ghost predicate Calm(base: World, w: World, ch: ChallengeId) {
    Quiet(w) && PortsPinned(base, ch)
  }

  lemma PinnedStays(base: World, d: World, ch: ChallengeId, i: InstanceId)
    requires Safe(base, d, ch) && PortsPinned(base, ch) && Belongs(base.db, i, ch)
    ensures Pinned(d.containers, base.db.instances[i].runtime.containers)
  {
    hide Sound, Whole, WithinTables, OthersRun, OtherTags, OtherArtifacts, Marked, Tracked;
    assert Pinned(base.containers, base.db.instances[i].runtime.containers);
    forall c | c in base.db.instances[i].runtime.containers && c in d.containers
      ensures c in base.containers && d.containers[c] == base.containers[c]
    {
    }
  }

  // -------------------------------------------------------- restarts and ports

  /** A pinned container has the ports on record whenever it runs. */
  lemma PinnedAsRecorded(w: World, rt: Runtime, c: ContainerId)
    requires FitsRuntime(w.containers, rt) && c in rt.containers && Pinned(w.containers, {c})
    ensures AsRecorded(w, rt, c)
  {
  }

  /** However Docker picks, a restarted container is back on the ports its instance has on
      record, if and only if it asks for all the ports it publishes. */
  lemma RestartKeepsPortsIff(w: World, i: InstanceId, c: ContainerId)
    requires Sound(w) && i in w.db.instances && c in w.db.instances[i].runtime.containers && c in w.containers
    ensures (forall d: World | IsStarted(w, d, c) :: AsRecorded(d, w.db.instances[i].runtime, c)) <==> Pinned(w.containers, {c})
  {
    hide Constraints, BuildsDistinct, OwnedOrRetired;
    var rt := w.db.instances[i].runtime;
    if Pinned(w.containers, {c}) {
      forall d: World | IsStarted(w, d, c) ensures AsRecorded(d, rt, c) { PinnedAsRecorded(d, rt, c); }
    } else {
      var d := OtherPort(w, rt, c);
    }
  }

  lemma OtherPort(w: World, rt: Runtime, c: ContainerId) returns (d: World)
    requires FitsRuntime(w.containers, rt) && c in rt.containers && c in w.containers && !Pinned(w.containers, {c})
    ensures IsStarted(w, d, c) && !AsRecorded(d, rt, c)
  {
    var names := w.containers[c].names - w.containers[c].binds.Keys;
    var n :| n in w.containers[c].names && n !in w.containers[c].binds;
    assert n in rt.ports;
    var ports := map x | x in names :: rt.ports[n] + 1;
    d := w.(running := w.running + {c}, picked := w.picked[c := ports]);
    assert Holds(d, c, n) && HeldPort(d, c, n) == rt.ports[n] + 1;
  }

  /** So an undo that restarts pinned containers is exact in their host ports as well. */
  lemma SameHostPorts(s: World, d: World, c: ContainerId, n: string)
    requires Same(s, d) && c in s.containers && Pinned(s.containers, {c}) && n in s.containers[c].names
    ensures Holds(s, c, n) && Holds(d, c, n) && HeldPort(d, c, n) == HeldPort(s, c, n)
  {
  }

  lemma SameTrans(s: World, mid: World, d: World)
    requires Same(s, mid) && Same(mid, d)
    ensures Same(s, d)
  {
  }

  /** Later undo steps leave a carried-out cutover carried out. */
  lemma AheadSame(s: World, d: World, d': World, cut: InstanceCutover)
    requires Ahead(s, d, cut) && Same(d, d')
    ensures Ahead(s, d', cut)
  {
  }

  /** Two bindings of the same host port are the same binding of the same container. */
  lemma OneOwnerPerPort(containers: map<ContainerId, Container>, instances: map<InstanceId, Instance>,
                        i: InstanceId, j: InstanceId, c: ContainerId, r: ContainerId, n: string, k: string)
    requires UniquePorts(instances) && i in instances && j in instances
    requires FitsRuntime(containers, instances[i].runtime) && FitsRuntime(containers, instances[j].runtime)
    requires c in instances[i].runtime.containers && c in containers && n in containers[c].binds
    requires r in instances[j].runtime.containers && r in containers && k in containers[r].names
    requires k in instances[j].runtime.ports && containers[c].binds[n] == instances[j].runtime.ports[k]
    ensures n == k && c == r && i == j
  {
    assert instances[i].runtime.ports[n] == containers[c].binds[n];
  }

  /** When only owned containers run, those of one instance can start: the ports they ask for
      are assigned to that instance, and no port has two owners. */
  lemma OwnedAreStartable(w: World, i: InstanceId, ids: set<ContainerId>)
    requires Sound(w) && Quiet(w) && i in w.db.instances
    requires ids <= w.db.instances[i].runtime.containers && ids <= w.containers.Keys && Pinned(w.containers, ids)
    ensures Startable(w, ids)
  {
    hide Constraints, FitsRuntime, UniquePorts, BuildsDistinct, OwnedOrRetired, AsRecorded, Pinned;
    assert UniquePorts(w.db.instances) by { ConstraintsGiveUniquePorts(w.db); }
    var rt := w.db.instances[i].runtime;
    forall c, r, n, k | c in ids && r in ids && n in w.containers[c].binds && k in w.containers[r].binds
                        && w.containers[r].binds[k] == w.containers[c].binds[n]
      ensures n == k && c == r
    {
      FitsParts(w.containers, rt, r);
      OneOwnerPerPort(w.containers, w.db.instances, i, i, c, r, n, k);
    }
    forall c, r, n, k | c in ids && r in w.running && r in w.containers && r != c && n in w.containers[c].binds && Holds(w, r, k)
      ensures HeldPort(w, r, k) != w.containers[c].binds[n]
    {
      assert Placed(w, r);
      var j :| j in w.db.instances && r in w.db.instances[j].runtime.containers && AsRecorded(w, w.db.instances[j].runtime, r);
      HeldIsRecorded(w, w.db.instances[j].runtime, r, k);
      if HeldPort(w, r, k) == w.containers[c].binds[n] {
        OneOwnerPerPort(w.containers, w.db.instances, i, j, c, r, n, k);
      }
    }
  }

  lemma FitsParts(containers: map<ContainerId, Container>, rt: Runtime, c: ContainerId)
    requires FitsRuntime(containers, rt) && c in rt.containers && c in containers
    ensures forall n | n in containers[c].binds :: n in containers[c].names && n in rt.ports && rt.ports[n] == containers[c].binds[n]
  {
  }

  lemma HeldIsRecorded(w: World, rt: Runtime, c: ContainerId, n: string)
    requires c in w.containers && AsRecorded(w, rt, c) && Holds(w, c, n)
    ensures n in w.containers[c].names && n in rt.ports && HeldPort(w, c, n) == rt.ports[n]
  {
  }

  lemma ConstraintsGiveUniquePorts(db: Db)
    requires Constraints(db)
    ensures UniquePorts(db.instances)
  {
  }

  // ---------------------------------------------------------------- prepare

  lemma DeployedIsAhead(s: World, mid: World, d: World, i: InstanceId, rt: Runtime)
    requires i in s.db.instances && s.db.instances[i].runtime.containers <= s.containers.Keys
    requires mid == s.(running := s.running - s.db.instances[i].runtime.containers)
    requires Deployed(mid, d, i, rt)
    ensures Ahead(s, d, InstanceCutover(i, s.db.instances[i].runtime, rt))
    ensures d.tags == s.tags
  {
    hide FitsRuntime, AsRecorded;
  }

  /** Running again everything that was paused gives `s` back. */
  lemma PausedThenResumed(s: World, mid: World, d: World, paused: set<ContainerId>)
    requires mid == s.(running := s.running - paused, nextId := mid.nextId) && s.nextId <= mid.nextId
    requires Resumed(mid, d, paused) && paused <= d.running
    ensures Same(s, d)
  {
  }

  lemma QuietAfterDeploy(s: World, d: World, i: InstanceId, rt: Runtime)
    requires Sound(s) && Quiet(s) && i in s.db.instances
    requires Deployed(s.(running := s.running - s.db.instances[i].runtime.containers), d, i, rt)
    ensures Quiet(d)
  {
    hide Constraints, FitsRuntime, BuildsDistinct, AsRecorded;
    assert d.db.instances[i].runtime == rt;
    var w := d.(db := s.db.(retired := s.db.retired + rt.containers));
    forall c | c in d.running
      ensures Placed(d, c)
    {
      if c in rt.containers {
        assert AsRecorded(w, rt, c);
        SamePicks(w, d, rt, c);
      } else {
        assert c in s.running && Placed(s, c);
        var j :| j in s.db.instances && c in s.db.instances[j].runtime.containers && AsRecorded(s, s.db.instances[j].runtime, c);
        assert j != i && d.db.instances[j] == s.db.instances[j];
        SamePicks(s, d, s.db.instances[j].runtime, c);
      }
    }
  }

  /** Nothing that instances own or hold is different. */
  lemma SameRowsQuiet(s: World, d: World)
    requires d.db.instances == s.db.instances && d.containers == s.containers && d.running == s.running && d.picked == s.picked
    ensures Quiet(s) ==> Quiet(d)
  {
    FewerQuiet(s, d);
  }

  lemma FewerQuiet(s: World, d: World)
    requires d.db.instances == s.db.instances && Keeps(d.containers, s.containers) && d.running <= s.running
    requires forall c | c in d.containers :: SameEntry(s.picked, d.picked, c)
    ensures Quiet(s) ==> Quiet(d)
  {
    if Quiet(s) {
      forall c | c in d.running ensures Placed(d, c) {
        assert Placed(s, c);
        var j :| j in s.db.instances && c in s.db.instances[j].runtime.containers && AsRecorded(s, s.db.instances[j].runtime, c);
        if c in d.containers { SamePicks(s, d, s.db.instances[j].runtime, c); }
        assert AsRecorded(d, d.db.instances[j].runtime, c);
      }
    }
  }

  /** The ports of a container are its own affair. */
  lemma SamePicks(s: World, d: World, rt: Runtime, c: ContainerId)
    requires AsRecorded(s, rt, c) && SameEntry(s.picked, d.picked, c)
    requires c in d.containers ==> c in s.containers && d.containers[c] == s.containers[c]
    ensures AsRecorded(d, rt, c)
  {
    forall n | c in d.containers && Holds(d, c, n)
      ensures Holds(s, c, n) && HeldPort(d, c, n) == HeldPort(s, c, n)
    {
    }
  }

  lemma OwnsAreTracked(db: Db, i: InstanceId)
    requires i in db.instances
    ensures forall c | c in db.instances[i].runtime.containers :: Tracked(db, c)
  {
  }

  /** What an attempt to start containers created is nobody's yet. */
  lemma GrownAreUnowned(s: World, w: World, ids: set<ContainerId>)
    requires Sound(s) && GrownBy(s, w, ids)
    ensures w.db.instances == s.db.instances && Grown(s, w)
    ensures forall c | c in ids :: !Owned(w.db, c)
  {
    hide Constraints, FitsRuntime, BuildsDistinct, OwnedOrRetired;
    assert w.db == s.db.(retired := w.db.retired);
  }

  lemma ReapedKeepsTables(w: World, d: World, ids: set<ContainerId>)
    requires Reaped(w, d, ids)
    ensures d.db.instances == w.db.instances
  {
  }

  lemma PausedParts(s: World, ids: set<ContainerId>)
    ensures
      var mid := s.(running := s.running - ids);
      RunOnly(s, mid) && (Quiet(s) ==> Quiet(mid))
  {
    FewerRun(s, s.(running := s.running - ids));
  }

  lemma FewerRun(s: World, d: World)
    requires d == s.(running := d.running, nextId := d.nextId) && d.running <= s.running
    ensures Quiet(s) ==> Quiet(d)
  {
    hide AsRecorded;
    if Quiet(s) {
      forall c | c in d.running ensures Placed(d, c) {
        assert Placed(s, c);
        var j :| j in s.db.instances && c in s.db.instances[j].runtime.containers && AsRecorded(s, s.db.instances[j].runtime, c);
        SamePicks(s, d, s.db.instances[j].runtime, c);
      }
    }
  }

  lemma SafeParts(base: World, s: World, ch: ChallengeId)
    requires Safe(base, s, ch)
    ensures base.nextId <= s.nextId
    ensures Sound(s) && IdsIssued(s) && IdsIssued(base) && Constraints(s.db)
  {
    hide Constraints;
  }

  lemma QuietAfterRewind(mid: World, v: World)
    requires v == mid.(nextId := v.nextId)
    ensures Quiet(mid) ==> Quiet(v)
  {
    FewerRun(mid, v);
  }

  lemma ConstraintsRetiring(s: World, w: World, ids: set<ContainerId>)
    requires GrownBy(s, w, ids) && Constraints(s.db)
    ensures Constraints(w.db)
  {
    hide Constraints;
    RetiringKeepsConstraints(s.db, w.db.retired);
    assert w.db == s.db.(retired := w.db.retired);
  }

  /** What a cutover needs: the old containers are there to be paused, the new images are there
      and their names known, and there are ports for new names. */
  ghost predicate CanCutOver(s: World, low: nat, high: nat, i: InstanceId, ch: ChallengeId, b: BuildId, images: seq<HostImage>, known: set<string>) {
    && i in s.db.instances && s.db.instances[i].runtime.containers <= s.containers.Keys
    && (forall k: nat | Runnable(images, k) :: images[k].ports <= known && TagName(ch, b, images[k].host, "") in s.tags)
    && Placeable(s.db, low, high, PublishedNames(images), s.db.instances[i].runtime.ports)
  }

  lemma ContainersExist(s: World, low: nat, high: nat, i: InstanceId, ch: ChallengeId, b: BuildId, images: seq<HostImage>, known: set<string>)
    ensures CanCutOver(s, low, high, i, ch, b, images, known) ==> i in s.db.instances && s.db.instances[i].runtime.containers <= s.containers.Keys
  {
  }

  /** In a quiet world, once its containers are paused nobody holds the ports of an instance. */
  lemma SureAfterPause(s: World, mid: World, low: nat, high: nat, i: InstanceId, ch: ChallengeId, b: BuildId, images: seq<HostImage>, known: set<string>)
    requires Sound(mid) && Quiet(mid) && CanCutOver(s, low, high, i, ch, b, images, known)
    requires mid == s.(running := s.running - s.db.instances[i].runtime.containers)
    ensures Sure(mid, low, high, ch, b, images, known, mid.db.instances[i].runtime.ports)
  {
    hide Placeable, FitsRuntime, BuildsDistinct, OwnedOrRetired, IdsIssued;
    var preferred := mid.db.instances[i].runtime.ports;
    forall c, n, k | c in mid.running && c in mid.containers && n in mid.containers[c].names && Holds(mid, c, n)
      ensures HeldPort(mid, c, n) in UsedPorts(mid.db)
      ensures k in preferred ==> preferred[k] != HeldPort(mid, c, n)
    {
      assert Placed(mid, c);
      var j :| j in mid.db.instances && c in mid.db.instances[j].runtime.containers && AsRecorded(mid, mid.db.instances[j].runtime, c);
      assert j != i;
    }
    OwnPortsKeepable(mid.db, i);
  }

  lemma OwnPortsKeepable(db: Db, i: InstanceId)
    requires UniquePorts(db.instances) && PortsInRange(db.instances) && i in db.instances
    ensures Keepable(db, db.instances[i].runtime.ports)
  {
  }

  /**
   Pauses the containers of an instance and starts replacements.  The instance either owns
   the replacements afterwards, or is running as before.
   */
  method PrepareInstanceCutover(m: Manager, i: InstanceId, build: Build, b: BuildId, known: set<string>,
                                ghost g: string, ghost base: World, ghost ch: ChallengeId)
    returns (r: CutoverResult, ghost hit: set<ContainerId>)
    requires m.portLow == 0 || m.portLow <= m.portHigh
    requires Safe(base, m.world, ch) && Tidy(base, m.world) && Belongs(base.db, i, ch)
    requires i in m.world.db.instances && DistinctImages(build.output.images)
    requires m.world.db.instances[i].runtime == base.db.instances[i].runtime && b == base.db.instances[i].build
    requires build.challenge == ch && build.output.images == RecordImages(m.world.db, ch)
    requires TagsOfGeneration(m.world.tags, ch, b, build.output.images, g)
    modifies m
    ensures Safe(base, m.world, ch)
    ensures r.Prepared? ==>
      && Ahead(old(m.world), m.world, r.cutover) && Tidy(base, m.world)
      && r.cutover.instance == i
      && m.world.tags == old(m.world.tags)
      && |r.cutover.candidate.containers| == RuntimeImages(build.output.images)
    ensures r.Prepared? ==>
      Runs(old(m.world.tags), m.world.containers, build.challenge, b, build.output.images, r.cutover.old_.ports, r.cutover.candidate)
    ensures r == Abandoned(true) ==> Same(Halted(old(m.world), hit), m.world) && (Same(old(m.world), m.world) <==> hit == {})
    ensures hit <= old(m.world.db.instances[i].runtime.containers) && hit <= old(m.world).running && hit !! m.world.running
    ensures |hit| <= 1 && (r.Prepared? || m.reliable ==> hit == {})
    ensures OnlyInstance(old(m.world), m.world, i) && Keeps(old(m.world.containers), m.world.containers)
    ensures r.Abandoned? ==> m.world.db.instances == old(m.world.db.instances)
    ensures r != Abandoned(false) && Calm(base, old(m.world), ch) ==> Calm(base, m.world, ch)
    ensures r.Prepared? && Quiet(old(m.world)) ==> Quiet(m.world)
    ensures m.reliable && Calm(base, old(m.world), ch) ==> r != Abandoned(false)
    ensures
      var able := Quiet(old(m.world)) && CanCutOver(old(m.world), m.portLow, m.portHigh, i, ch, b, build.output.images, known);
      m.reliable && m.fortunate && able ==> r.Prepared?
    ensures old(m.crashPoints) <= m.crashPoints
    ensures forall d | d in m.crashPoints :: d in old(m.crashPoints) || Safe(base, d, ch)
  {
    hide *;
    ghost var s := m.world;
    var current := m.world.db.instances[i].runtime;
    ContainersExist(s, m.portLow, m.portHigh, i, ch, b, build.output.images, known);
    SafeParts(base, s, ch);
    OwnsAreTracked(s.db, i);
    OwnAreNotOthers(base, s, ch, i);
    SafeRun(base, s, ch, current.containers);
    var ok, paused;
    ok, paused, hit := PauseContainerProcesses(m, current.containers);
    ghost var mid := m.world;
    HaltedParts(s, mid, paused, hit);
    PausedParts(s, paused + hit);
    if !ok {
      PauseFailed(base, s, mid, ch, i, paused, hit);
      var resumed := ResumeContainerProcesses(m, paused);
      PauseUndone(base, s, mid, m.world, ch, i, paused, hit);
      return Abandoned(resumed), hit;
    }
    PausedIsSafe(base, s, mid, ch, current.containers, paused);
    SafeParts(base, mid, ch);
    SafeGrown(base, mid, ch);
    if Quiet(s) && CanCutOver(s, m.portLow, m.portHigh, i, ch, b, build.output.images, known) {
      SureAfterPause(s, mid, m.portLow, m.portHigh, i, ch, b, build.output.images, known);
    }
    var rt;
    ok, rt := StartContainers(m, i, build, b, known, false, current.ports);
    ghost var w := m.world;
    if ok {
      DeployedCandidate(base, mid, w, ch, i, b, build.output.images, rt, g);
      SafeDeployed(base, mid, w, ch, i, rt);
      DeployedIsAhead(s, mid, w, i, rt);
      AheadIsOnlyInstance(s, w, InstanceCutover(i, current, rt));
      if Quiet(s) { QuietAfterDeploy(s, w, i, rt); }
      CalmIs(base, s, ch);
      CalmIs(base, w, ch);
      return Prepared(InstanceCutover(i, current, rt)), {};
    }
    GrownAreUnowned(mid, w, rt.containers);
    ConstraintsRetiring(mid, w, rt.containers);
    SafeReaped(base, w, ch, rt.containers);
    var removed := RemoveRetiredContainerIDs(m, rt.containers);
    ghost var v := m.world;
    StartFailed(base, s, mid, w, v, ch, i, rt.containers);
    var resumed := ResumeContainerProcesses(m, current.containers);
    StartUndone(base, s, mid, w, v, m.world, ch, i, rt.containers);
    return Abandoned(removed && resumed), {};
  }

  /** Once what was started is gone, what was stopped can be started again. */
  lemma StartFailed(base: World, s: World, mid: World, w: World, v: World, ch: ChallengeId, i: InstanceId, created: set<ContainerId>)
    requires i in s.db.instances && mid == s.(running := s.running - s.db.instances[i].runtime.containers)
    requires Sound(mid) && Belongs(base.db, i, ch) && GrownBy(mid, w, created) && Reaped(w, v, created) && Safe(base, v, ch)
    requires s.db.instances[i].runtime.containers <= s.containers.Keys && s.db.instances[i].runtime == base.db.instances[i].runtime
    ensures forall d :: Resumed(v, d, s.db.instances[i].runtime.containers) ==> Safe(base, d, ch)
    ensures created !! v.containers.Keys && created !! v.db.retired && Calm(base, s, ch) ==> Startable(v, s.db.instances[i].runtime.containers)
  {
    hide *;
    var old_ := s.db.instances[i].runtime.containers;
    GrownAreUnowned(mid, w, created);
    SoundIssued(mid);
    GrownThenReaped(mid, w, created);
    ReapedKeepsTables(w, v, created);
    SafeParts(base, v, ch);
    OwnsAreTracked(v.db, i);
    OwnAreNotOthers(base, v, ch, i);
    SafeRun(base, v, ch, old_);
    PausedExist(s, mid, old_);
    if created !! v.containers.Keys && created !! v.db.retired {
      QuietAfterRewind(mid, v);
      CalmIs(base, s, ch);
      if Calm(base, s, ch) { PinnedStays(base, v, ch, i); OwnedAreStartable(v, i, old_); }
    }
  }

  lemma CalmIs(base: World, w: World, ch: ChallengeId)
    ensures Calm(base, w, ch) <==> Quiet(w) && PortsPinned(base, ch)
  {
  }

  lemma SoundIssued(s: World)
    requires Sound(s)
    ensures IdsIssued(s)
  {
  }

  lemma StartUndone(base: World, s: World, mid: World, w: World, v: World, d: World, ch: ChallengeId, i: InstanceId, created: set<ContainerId>)
    requires i in s.db.instances && mid == s.(running := s.running - s.db.instances[i].runtime.containers)
    requires Sound(mid) && GrownBy(mid, w, created) && Reaped(w, v, created) && Resumed(v, d, s.db.instances[i].runtime.containers)
    requires Safe(base, v, ch) && Belongs(base.db, i, ch) && s.db.instances[i].runtime == base.db.instances[i].runtime
    ensures OnlyInstance(s, d, i) && Keeps(s.containers, d.containers) && d.db.instances == s.db.instances
    ensures created !! v.containers.Keys && created !! v.db.retired ==>
      && (Calm(base, s, ch) ==> Calm(base, d, ch))
      && (s.db.instances[i].runtime.containers <= d.running ==> Same(Halted(s, {}), d) && Same(s, d))
  {
    hide *;
    var old_ := s.db.instances[i].runtime.containers;
    GrownAreUnowned(mid, w, created);
    SoundIssued(mid);
    GrownThenReaped(mid, w, created);
    ReapedKeepsTables(w, v, created);
    PausedExist(s, mid, old_);
    NothingTaken(s, mid, v, d, old_, created, i);
    NothingHalted(s);
    SafeParts(base, v, ch);
    CalmIs(base, s, ch);
    CalmIs(base, d, ch);
    if PortsPinned(base, ch) { PinnedStays(base, v, ch, i); }
    QuietAfterResume(v, d, i, old_);
    if created !! v.containers.Keys && created !! v.db.retired {
      QuietAfterRewind(mid, v);
      if old_ <= d.running { PausedThenResumed(s, v, d, old_); }
    }
  }

  /** Whatever has been stopped can be started again. */
  lemma PauseFailed(base: World, s: World, mid: World, ch: ChallengeId, i: InstanceId, paused: set<ContainerId>, hit: set<ContainerId>)
    requires Safe(base, s, ch) && Tidy(base, s) && Belongs(base.db, i, ch) && i in s.db.instances
    requires mid == Halted(s, paused + hit) && paused + hit <= s.db.instances[i].runtime.containers && paused <= mid.containers.Keys
    requires s.db.instances[i].runtime == base.db.instances[i].runtime
    ensures Safe(base, mid, ch) && forall d :: Resumed(mid, d, paused) ==> Safe(base, d, ch)
    ensures Calm(base, s, ch) ==> Startable(mid, paused)
  {
    hide *;
    HaltedParts(s, mid, paused, hit);
    PausedParts(s, paused + hit);
    OwnsAreTracked(s.db, i);
    OwnAreNotOthers(base, s, ch, i);
    PausedIsSafe(base, s, mid, ch, s.db.instances[i].runtime.containers, paused + hit);
    OwnsAreTracked(mid.db, i);
    OwnAreNotOthers(base, mid, ch, i);
    SafeRun(base, mid, ch, paused);
    SafeParts(base, mid, ch);
    CalmIs(base, s, ch);
    PausedExist(s, mid, paused + hit);
    if Calm(base, s, ch) {
      PinnedStays(base, mid, ch, i);
      PinnedFewer(mid.containers, s.db.instances[i].runtime.containers, paused);
      OwnedAreStartable(mid, i, paused);
    }
  }

  lemma PinnedFewer(containers: map<ContainerId, Container>, ids: set<ContainerId>, fewer: set<ContainerId>)
    requires Pinned(containers, ids) && fewer <= ids
    ensures Pinned(containers, fewer)
  {
  }

  lemma PauseUndone(base: World, s: World, mid: World, d: World, ch: ChallengeId, i: InstanceId, paused: set<ContainerId>, hit: set<ContainerId>)
    requires mid == Halted(s, paused + hit) && hit !! paused && i in s.db.instances
    requires Safe(base, mid, ch) && Belongs(base.db, i, ch) && s.db.instances[i].runtime == base.db.instances[i].runtime
    requires paused <= s.db.instances[i].runtime.containers && Resumed(mid, d, paused)
    ensures OnlyInstance(s, d, i) && Keeps(s.containers, d.containers) && d.db.instances == s.db.instances
    ensures hit !! d.running && (Calm(base, s, ch) ==> Calm(base, d, ch))
    ensures paused <= d.running && hit <= s.running ==> Same(Halted(s, hit), d) && (Same(s, d) <==> hit == {})
  {
    hide *;
    HaltedParts(s, mid, paused, hit);
    PausedExist(s, mid, paused + hit);
    if paused <= d.running { PausedThenResumed(Halted(s, hit), mid, d, paused); }
    SafeParts(base, mid, ch);
    CalmIs(base, s, ch);
    CalmIs(base, d, ch);
    if PortsPinned(base, ch) {
      PinnedStays(base, mid, ch, i);
      PinnedFewer(mid.containers, s.db.instances[i].runtime.containers, paused);
    }
    QuietAfterResume(mid, d, i, paused);
    NothingGrew(s, mid, d, paused, i);
    StaysDown(s, mid, d, paused, hit);
    if paused <= d.running && hit <= s.running { ExactUnlessStopped(s, d, hit); }
  }

  lemma HaltedParts(s: World, mid: World, paused: set<ContainerId>, hit: set<ContainerId>)
    requires mid == Halted(s, paused + hit)
    ensures mid == s.(running := s.running - (paused + hit)) && (hit == {} ==> mid == s.(running := s.running - paused))
    ensures mid == Halted(s, hit).(running := Halted(s, hit).running - paused, nextId := mid.nextId)
    ensures Halted(s, hit).nextId <= mid.nextId
  {
    assert Halted(s, hit).running - paused == s.running - (paused + hit);
    if hit == {} { assert paused + hit == paused; }
  }

  lemma NothingHalted(s: World)
    ensures Halted(s, {}) == s
  {
    assert s.running - {} == s.running;
  }

  /** Resuming the containers that are known to have stopped does not start the other one. */
  lemma StaysDown(s: World, mid: World, d: World, paused: set<ContainerId>, hit: set<ContainerId>)
    requires mid == Halted(s, paused + hit) && Resumed(mid, d, paused) && hit !! paused
    ensures hit !! d.running
  {
  }

  /** The way back is exact if and only if no failed stop has taken effect. */
  lemma ExactUnlessStopped(s: World, d: World, hit: set<ContainerId>)
    requires Same(Halted(s, hit), d) && hit <= s.running && hit !! d.running
    ensures Same(s, d) <==> hit == {}
  {
    if hit == {} { NothingHalted(s); }
    if c :| c in hit { assert c in s.running && c !in d.running; }
  }

  /** `Same`, but that one container may be down that ran in `s`: one whose stop took effect
      although it was reported to fail. */
  ghost predicate AsBefore(s: World, d: World) {
    && d == s.(running := d.running, picked := d.picked, nextId := d.nextId) && s.nextId <= d.nextId
    && |s.running - d.running| <= 1
  }

  lemma HaltedAsBefore(s: World, d: World, hit: set<ContainerId>)
    requires Same(Halted(s, hit), d) && |hit| <= 1
    ensures AsBefore(s, d) && s.running - d.running <= hit
    ensures hit == {} ==> Same(s, d)
  {
    assert s.running - d.running <= hit;
    Fewer(s.running - d.running, hit);
    if hit == {} { NothingHalted(s); }
  }

  lemma Fewer(a: set<ContainerId>, b: set<ContainerId>)
    requires a <= b
    ensures |a| <= |b|
  {
    assert b == a + (b - a);
  }

  lemma AsBeforeHalted(s: World, d: World)
    requires AsBefore(s, d)
    ensures Same(Halted(s, s.running - d.running), d)
    ensures Same(s, d) <==> s.running <= d.running
  {
  }

  lemma SameAsBefore(s: World, d: World)
    requires Same(s, d)
    ensures AsBefore(s, d)
  {
    assert s.running - d.running == {};
  }

  /** What was started from tags of one generation is a candidate. */
  lemma DeployedCandidate(base: World, s: World, d: World, ch: ChallengeId, i: InstanceId, b: BuildId, images: seq<HostImage>, rt: Runtime, g: string)
    requires Belongs(base.db, i, ch) && b == base.db.instances[i].build && base.nextId <= s.nextId
    requires images == RecordImages(s.db, ch) && TagsOfGeneration(s.tags, ch, b, images, g)
    requires Deployed(s, d, i, rt) && |rt.containers| == RuntimeImages(images)
    requires Runs(s.tags, d.containers, ch, b, images, base.db.instances[i].runtime.ports, rt)
    ensures Candidate(d.containers, ch, b, RecordImages(s.db, ch), base.db.instances[i].runtime, rt, base.nextId)
  {
    hide Runs, TagsOfGeneration, RuntimeImages, RecordImages, FitsRuntime, AsRecorded;
  }

  lemma PausedExist(s: World, mid: World, paused: set<ContainerId>)
    requires mid == s.(running := s.running - paused)
    ensures Quiet(s) ==> Quiet(mid)
    ensures mid.db == s.db && mid.containers == s.containers
  {
    FewerRun(s, mid);
  }

  lemma NothingGrew(s: World, mid: World, d: World, ids: set<ContainerId>, i: InstanceId)
    requires mid == s.(running := mid.running) && Resumed(mid, d, ids)
    ensures OnlyInstance(s, d, i) && Keeps(s.containers, d.containers) && d.db.instances == s.db.instances
  {
  }

  lemma NothingTaken(s: World, mid: World, v: World, d: World, old_: set<ContainerId>, created: set<ContainerId>, i: InstanceId)
    requires mid == s.(running := mid.running) && GrownBy(mid, v, created) && Resumed(v, d, old_)
    ensures OnlyInstance(s, d, i) && Keeps(s.containers, d.containers) && d.db.instances == s.db.instances
  {
  }

  lemma AheadIsOnlyInstance(s: World, d: World, cut: InstanceCutover)
    requires Ahead(s, d, cut)
    ensures OnlyInstance(s, d, cut.instance) && Keeps(s.containers, d.containers)
  {
  }

  lemma PausedIsSafe(base: World, s: World, mid: World, ch: ChallengeId, ids: set<ContainerId>, paused: set<ContainerId>)
    requires Safe(base, s, ch) && Tidy(base, s)
    requires paused <= ids && forall c | c in ids :: Tracked(s.db, c) && !Others(base, ch, c)
    requires mid == s.(running := s.running - paused)
    ensures Safe(base, mid, ch) && Tidy(base, mid)
  {
    hide Safe, Tidy, Tracked, Others;
    SafeRun(base, s, ch, ids);
    assert RunOnly(s, mid);
    assert Paused(s, mid, ids);
  }

  // --------------------------------------------------------------- rollback

  /** Where the world stands once the old runtime is recorded again. */
  ghost function Restored(d: World, cut: InstanceCutover): World
    requires cut.instance in d.db.instances
  {
    d.(db := ReplaceRuntime(d.db, cut.instance, cut.old_))
  }

  lemma RestoredParts(s: World, d: World, cut: InstanceCutover)
    requires Sound(s) && Ahead(s, d, cut)
    ensures cut.instance in d.db.instances
    ensures Restored(d, cut).db == ReplaceRuntime(d.db, cut.instance, cut.old_)
    ensures Restored(d, cut).db == s.db.(retired := s.db.retired + cut.candidate.containers)
    ensures Constraints(Restored(d, cut).db)
    ensures FitsRuntime(d.containers, cut.old_)
    ensures forall c | c in cut.old_.containers :: c in d.containers && c < d.nextId
    ensures forall c | c in cut.candidate.containers :: !Owned(Restored(d, cut).db, c)
  {
    hide Constraints, BuildsDistinct, FitsRuntime;
    var i := cut.instance;
    var rt := cut.candidate;
    assert rt.containers !! cut.old_.containers;
    assert rt.containers !! s.db.retired;
    ReplaceThenRestore(s.db, i, rt);
    assert Restored(d, cut).db == ReplaceRuntime(ReplaceRuntime(s.db, i, rt), i, s.db.instances[i].runtime);
    var back := Restored(d, cut).db;
    assert back == s.db.(retired := back.retired);
    RetiringKeepsConstraints(s.db, back.retired);
    FitsLater(s.containers, d.containers, cut.old_, s.nextId);
  }

  lemma RestoredThenReaped(s: World, d: World, v: World, cut: InstanceCutover)
    requires Sound(s) && Ahead(s, d, cut)
    requires cut.instance in d.db.instances
    requires Restored(d, cut).db == s.db.(retired := s.db.retired + cut.candidate.containers)
    requires Reaped(Restored(d, cut), v, cut.candidate.containers)
    ensures v.db.instances == s.db.instances
    ensures
      var ids := cut.candidate.containers;
      ids !! v.containers.Keys && ids !! v.db.retired ==>
        && v == s.(running := v.running, picked := v.picked, nextId := v.nextId)
        && s.running - cut.old_.containers <= v.running && s.nextId <= v.nextId
  {
    hide Constraints, BuildsDistinct, FitsRuntime, OwnedOrRetired;
    var ids := cut.candidate.containers;
    if ids !! v.containers.Keys && ids !! v.db.retired {
      assert v.db.retired == s.db.retired;
      assert v.containers == s.containers;
    }
  }

  lemma SameAfterResume(s: World, v: World, d: World, ids: set<ContainerId>)
    requires v == s.(running := v.running, picked := v.picked, nextId := v.nextId) && s.running - ids <= v.running && s.nextId <= v.nextId
    requires Resumed(v, d, ids) && ids <= d.running
    ensures Same(s, d)
  {
  }

  /** Restoring one instance needs, for Docker to have no reason to refuse, that only owned
      containers run besides the candidates. */
  lemma QuietAfterReap(s: World, d: World, v: World, cut: InstanceCutover)
    requires Sound(s) && Ahead(s, d, cut) && Quiet(d)
    requires cut.instance in d.db.instances
    requires Reaped(Restored(d, cut), v, cut.candidate.containers)
    requires v == s.(running := v.running, picked := v.picked, nextId := v.nextId)
    ensures Quiet(v)
  {
    hide Constraints, BuildsDistinct, FitsRuntime, OwnedOrRetired, AsRecorded;
    var i := cut.instance;
    forall c | c in v.running
      ensures Placed(v, c)
    {
      assert c in d.running && c !in cut.candidate.containers;
      assert Placed(d, c);
      var j :| j in d.db.instances && c in d.db.instances[j].runtime.containers && AsRecorded(d, d.db.instances[j].runtime, c);
      assert j != i;
      assert v.db.instances[j] == d.db.instances[j];
      SamePicks(d, v, d.db.instances[j].runtime, c);
    }
  }

  /**
   Gives an instance its previous containers back.  The ownership record is restored before
   the replacements are removed, so a crash in between leaves nothing to guess.
   */
  method RollbackInstanceCutover(m: Manager, cut: InstanceCutover, ghost s: World, ghost base: World, ghost ch: ChallengeId)
    returns (ok: bool)
    requires Sound(base) && Safe(base, m.world, ch) && Undiminished(base, m.world)
    requires Belongs(base.db, cut.instance, ch) && cut.old_ == base.db.instances[cut.instance].runtime
    requires forall c | c in cut.candidate.containers :: c >= base.nextId
    requires Exclusive(m.world.db, cut.instance, cut.candidate.containers)
    modifies m
    ensures Safe(base, m.world, ch) && Undiminished(base, m.world)
    ensures OnlyInstance(old(m.world), m.world, cut.instance)
    ensures m.world.db.instances == old(m.world.db.instances) ||
      (cut.instance in m.world.db.instances && m.world.db.instances[cut.instance].runtime == cut.old_)
    ensures ok && Sound(s) && Ahead(s, old(m.world), cut) ==> Same(s, m.world)
    ensures m.reliable && Calm(base, old(m.world), ch) && Sound(s) && Ahead(s, old(m.world), cut) ==> ok && Calm(base, m.world, ch)
    ensures old(m.crashPoints) <= m.crashPoints
    ensures forall d | d in m.crashPoints :: d in old(m.crashPoints) || Safe(base, d, ch)
  {
    hide *;
    ghost var d := m.world;
    ghost var exact := Sound(s) && Ahead(s, d, cut);
    SafeParts(base, d, ch);
    BaseRuntimeFits(base, d, ch, cut.instance);
    if exact { RestoredParts(s, d, cut); }
    var restored := ReplaceInstanceRuntimeMetadata(m, cut.instance, cut.old_);
    ghost var u := m.world;
    if !restored {
      OnlyInstanceRefl(d, cut.instance);
      return false;
    }
    RestoredNow(d, u, cut);
    SafeReplaced(base, d, ch, cut.instance, cut.old_);
    CandidatesUnowned(base, d, u, cut);
    SafeReaped(base, u, ch, cut.candidate.containers);
    var removed := RemoveRetiredContainerIDs(m, cut.candidate.containers);
    ghost var v := m.world;
    OnlyInstanceReaped(base, d, u, v, cut);
    SafeParts(base, v, ch);
    if exact { RestoredThenReaped(s, d, v, cut); AheadParts(s, d, cut); }
    OwnsAreTracked(v.db, cut.instance);
    OwnAreNotOthers(base, v, ch, cut.instance);
    SafeRun(base, v, ch, cut.old_.containers);
    if exact && removed && Calm(base, d, ch) { RestartsCalmly(base, s, d, v, ch, cut); }
    var resumed := ResumeContainerProcesses(m, cut.old_.containers);
    OnlyInstanceResumed(base, d, v, m.world, cut);
    if exact && removed && resumed { SameAfterResume(s, v, m.world, cut.old_.containers); }
    ok := removed && resumed;
  }

  /** Once the candidates are gone Docker restarts the old containers, on their old ports. */
  lemma RestartsCalmly(base: World, s: World, d: World, v: World, ch: ChallengeId, cut: InstanceCutover)
    requires Sound(s) && Ahead(s, d, cut) && Calm(base, d, ch) && Safe(base, v, ch)
    requires cut.instance in d.db.instances && Belongs(base.db, cut.instance, ch) && cut.instance in base.db.instances
    requires cut.old_ == base.db.instances[cut.instance].runtime
    requires Reaped(Restored(d, cut), v, cut.candidate.containers)
    requires v == s.(running := v.running, picked := v.picked, nextId := v.nextId)
    ensures Startable(v, cut.old_.containers) && forall w :: Resumed(v, w, cut.old_.containers) ==> Calm(base, w, ch)
  {
    hide *;
    CalmIs(base, d, ch);
    AheadParts(s, d, cut);
    SafeParts(base, v, ch);
    QuietAfterReap(s, d, v, cut);
    PinnedStays(base, v, ch, cut.instance);
    OwnedAreStartable(v, cut.instance, cut.old_.containers);
    forall w | Resumed(v, w, cut.old_.containers) ensures Calm(base, w, ch) {
      QuietAfterResume(v, w, cut.instance, cut.old_.containers);
      CalmIs(base, w, ch);
    }
  }

  lemma OnlyInstanceRefl(d: World, i: InstanceId)
    ensures OnlyInstance(d, d, i)
  {
  }

  lemma CandidatesUnowned(base: World, d: World, u: World, cut: InstanceCutover)
    requires cut.instance in d.db.instances && cut.instance in base.db.instances && u == Restored(d, cut)
    requires IdsIssued(base) && cut.old_ == base.db.instances[cut.instance].runtime
    requires forall c | c in cut.candidate.containers :: c >= base.nextId
    requires Exclusive(d.db, cut.instance, cut.candidate.containers)
    ensures forall c | c in cut.candidate.containers :: !Owned(u.db, c)
  {
  }

  lemma OnlyInstanceReaped(base: World, d: World, u: World, v: World, cut: InstanceCutover)
    requires cut.instance in d.db.instances && u == Restored(d, cut)
    requires Reaped(u, v, cut.candidate.containers) && Undiminished(base, d) && IdsIssued(base)
    requires forall c | c in cut.candidate.containers :: c >= base.nextId
    ensures OnlyInstance(d, v, cut.instance) && Undiminished(base, v)
    ensures cut.instance in v.db.instances && v.db.instances[cut.instance].runtime == cut.old_
  {
  }

  lemma OnlyInstanceResumed(base: World, d: World, v: World, w: World, cut: InstanceCutover)
    requires OnlyInstance(d, v, cut.instance) && Undiminished(base, v)
    requires Resumed(v, w, cut.old_.containers)
    ensures OnlyInstance(d, w, cut.instance) && Undiminished(base, w) && w.db == v.db
  {
  }

  lemma RestoredNow(d: World, u: World, cut: InstanceCutover)
    requires cut.instance in d.db.instances && u == d.(db := ReplaceRuntime(d.db, cut.instance, cut.old_))
    ensures u == Restored(d, cut)
  {
  }

  lemma AheadParts(s: World, d: World, cut: InstanceCutover)
    requires Ahead(s, d, cut)
    ensures cut.instance in s.db.instances && cut.old_ == s.db.instances[cut.instance].runtime
    ensures cut.old_.containers <= s.containers.Keys
    ensures d.tags == s.tags && d.artifacts == s.artifacts
  {
  }

  lemma QuietAfterResume(v: World, d: World, i: InstanceId, ids: set<ContainerId>)
    requires Sound(v) && i in v.db.instances && ids <= v.db.instances[i].runtime.containers && Resumed(v, d, ids)
    ensures Quiet(v) && Pinned(v.containers, ids) ==> Quiet(d)
  {
    hide Constraints, BuildsDistinct, OwnedOrRetired, AsRecorded, FitsRuntime;
    if Quiet(v) && Pinned(v.containers, ids) {
      forall c | c in d.running ensures Placed(d, c) {
        if c in v.running {
          assert Placed(v, c);
          var j :| j in v.db.instances && c in v.db.instances[j].runtime.containers && AsRecorded(v, v.db.instances[j].runtime, c);
          SamePicks(v, d, v.db.instances[j].runtime, c);
        } else {
          PinnedAsRecorded(d, d.db.instances[i].runtime, c);
        }
      }
    }
  }

  // ----------------------------------------------------------------- finish

  /** Removes the containers an instance ran before a cutover that is kept. */
  method FinishInstanceCutover(m: Manager, cut: InstanceCutover, ghost base: World, ghost ch: ChallengeId) returns (ok: bool)
    requires Safe(base, m.world, ch)
    requires forall c | c in cut.old_.containers :: !Owned(m.world.db, c)
    modifies m
    ensures Safe(base, m.world, ch)
    ensures Reaped(old(m.world), m.world, cut.old_.containers)
    ensures ok ==> cut.old_.containers !! m.world.containers.Keys && cut.old_.containers !! m.world.db.retired
    ensures m.reliable ==> ok
    ensures old(m.crashPoints) <= m.crashPoints
    ensures forall d | d in m.crashPoints :: d in old(m.crashPoints) || Safe(base, d, ch)
  {
    hide *;
    SafeParts(base, m.world, ch);
    SafeReaped(base, m.world, ch, cut.old_.containers);
    ok := RemoveRetiredContainerIDs(m, cut.old_.containers);
  }
}
