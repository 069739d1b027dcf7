/** What a manager does at startup, when nobody else is at work (docker.go). */
module Recovery {
  import opened Store
  import opened Instances
  import opened Containers
  import opened Safety
  import opened Cutover
  import opened Generations
  import opened Lifecycle
  import opened Staffing

  ghost function ImagesOfBuild(db: Db, b: BuildId): nat {
    if b in db.builds then RuntimeImages(db.builds[b].output.images) else 0
  }

  /** No containers on record, or not one per image. */
  ghost predicate Incomplete(db: Db, i: InstanceId) {
    i in db.instances &&
      (|db.instances[i].runtime.containers| == 0 || |db.instances[i].runtime.containers| != ImagesOfBuild(db, db.instances[i].build))
  }

  /** Instances whose containers are not as many as the images of their build other than the
      builder's, or none. */
  function IncompleteInstanceIDs(db: Db): (ids: set<InstanceId>)
    ensures forall i :: i in ids <==> Incomplete(db, i)
  {
    set i | i in db.instances &&
      var count := |db.instances[i].runtime.containers|;
      var build := db.instances[i].build;
      count == 0 || count != (if build in db.builds then RuntimeImages(db.builds[build].output.images) else 0)
  }

  ghost predicate Missing(w: World, i: InstanceId) {
    i in w.db.instances && exists c :: c in w.db.instances[i].runtime.containers && c !in w.containers
  }

  /** One running container per image. */
  ghost predicate Healthy(w: World, i: InstanceId) {
    && i in w.db.instances
    && |w.db.instances[i].runtime.containers| == ImagesOfBuild(w.db, w.db.instances[i].build)
    && w.db.instances[i].runtime.containers <= w.running
  }

  /** Only instances, retired containers and retired networks differ in the tables, and what is
      left of the old containers is as it was. */
  ghost predicate TablesKept(s: World, d: World) {
    && d.db == s.db.(instances := d.db.instances, retired := d.db.retired, retiredNetworks := d.db.retiredNetworks)
    && s.nextId <= d.nextId
    && (forall c | c in d.containers && c < s.nextId :: c in s.containers && d.containers[c] == s.containers[c])
  }

  /** Whatever is owned asks for all the ports it publishes. */
  ghost predicate AllPinned(w: World) {
    forall i | i in w.db.instances :: Pinned(w.containers, w.db.instances[i].runtime.containers)
  }

  /** Docker has no reason to refuse to start what is owned. */
  ghost predicate Restartable(w: World) {
    AllPinned(w) && forall c | c in w.running :: Owned(w.db, c)
  }

  lemma RestartableIsQuiet(w: World)
    requires Sound(w) && Restartable(w)
    ensures Quiet(w)
  {
    hide Constraints, BuildsDistinct, OwnedOrRetired, FitsRuntime, AsRecorded;
    forall c | c in w.running
      ensures Placed(w, c)
    {
      assert Owned(w.db, c);
      var i :| i in w.db.instances && c in w.db.instances[i].runtime.containers;
      PinnedFewer(w.containers, w.db.instances[i].runtime.containers, {c});
      PinnedAsRecorded(w, w.db.instances[i].runtime, c);
    }
  }

  /** Instances outside `broken` keep their rows, and what they run keeps running. */
  ghost predicate Kept(s: World, d: World, broken: set<InstanceId>) {
    forall i | i in s.db.instances && i !in broken ::
      && i in d.db.instances && d.db.instances[i] == s.db.instances[i]
      && (forall c | c in s.db.instances[i].runtime.containers && c in s.running :: c in d.running)
  }

  lemma KeptTrans(s: World, mid: World, d: World, broken: set<InstanceId>)
    requires Kept(s, mid, broken) && Kept(mid, d, broken) && TablesKept(s, mid) && TablesKept(mid, d)
    ensures Kept(s, d, broken) && TablesKept(s, d)
  {
  }

  lemma PreservesKeeps(s: World, d: World, broken: set<InstanceId>)
    requires Preserves(s, d)
    ensures Kept(s, d, broken) && TablesKept(s, d)
  {
  }

  /** A world that recovery may stop in. */
  ghost predicate Recovering(s: World, d: World) {
    Fine(s, d) && TablesKept(s, d)
  }

  lemma RecoveringTrans(s: World, mid: World)
    requires Recovering(s, mid)
    ensures forall d :: Recovering(mid, d) ==> Recovering(s, d)
  {
    hide Sound, Consistent;
  }

  lemma RecoveringSelf(s: World)
    requires Sound(s)
    ensures Recovering(s, s)
  {
    hide Sound, Consistent;
  }

  lemma RecoveringPreserves(s: World, mid: World)
    requires Sound(s) && Preserves(s, mid)
    ensures forall d :: Sound(d) && Preserves(mid, d) ==> Recovering(s, d)
  {
    hide Sound, Consistent, Preserves, TablesKept;
    SoundIdsOf(s);
    forall d | Sound(d) && Preserves(mid, d)
      ensures Recovering(s, d)
    {
      PreservesTrans(s, mid, d);
      PreservesKeeps(s, d, {});
      if Consistent(s) { PreservesConsistent(s, d); }
    }
  }

  // ---------------------------------------------------- restarting what is tracked

  /** Some owned containers were started, nothing else. */
  ghost predicate Restarted(s: World, d: World) {
    && RunOnly(s, d) && s.running <= d.running
    && (forall c | c in d.running && c !in s.running :: c in s.containers && Owned(s.db, c))
  }

  lemma RestartedRefl(s: World)
    ensures Restarted(s, s)
  {
  }

  lemma RestartedOne(s: World, mid: World, i: InstanceId, c: ContainerId)
    requires Restarted(s, mid) && i in s.db.instances && c in s.db.instances[i].runtime.containers
    ensures forall d :: (c !in mid.running && IsStarted(mid, d, c)) ==> Restarted(s, d)
    ensures mid.db == s.db && mid.containers == s.containers
  {
    assert Owned(s.db, c);
  }

  lemma RestartedIsSound(s: World)
    requires Sound(s)
    ensures forall d :: Restarted(s, d) ==> Sound(d) && (Restartable(s) ==> Restartable(d)) && TablesKept(s, d) && d.db == s.db && Recovering(s, d)
  {
    hide Sound, Consistent, AllPinned;
    SoundIdsOf(s);
    forall d | Restarted(s, d)
      ensures Sound(d) && (Restartable(s) ==> Restartable(d)) && Recovering(s, d)
    {
      SamePinned(s, d);
      assert d.db == s.db;
      SoundRun(s, d);
      if Consistent(s) { LessIsConsistent(s, d); }
    }
  }

  lemma SamePinned(s: World, d: World)
    requires d.db.instances == s.db.instances
    requires forall c | c in d.containers :: c in s.containers && d.containers[c] == s.containers[c]
    ensures AllPinned(s) ==> AllPinned(d)
  {
  }

  lemma OwnedCanStart(w: World, i: InstanceId, c: ContainerId)
    requires Sound(w) && Restartable(w) && i in w.db.instances && c in w.db.instances[i].runtime.containers && c in w.containers
    ensures PortsFree(w, c)
  {
    hide Sound, Quiet, Startable, PortsFree, Pinned;
    RestartableIsQuiet(w);
    PinnedFewer(w.containers, w.db.instances[i].runtime.containers, {c});
    OwnedAreStartable(w, i, {c});
    StartableStep(w, {c}, c);
  }

  /** The pair names a container some instance has on record. */
  predicate IsTracked(db: Db, t: (InstanceId, ContainerId)) {
    t.0 in db.instances && t.1 in db.instances[t.0].runtime.containers
  }

  function TrackedContainers(db: Db): (pairs: set<(InstanceId, ContainerId)>)
    ensures forall t :: t in pairs <==> IsTracked(db, t)
  {
    set i, c | i in db.instances && c in db.instances[i].runtime.containers :: (i, c)
  }

  /** Starts every container on record that is not running; instances with a missing one are
      broken. */
  method RestartTracked(m: Manager, known: set<InstanceId>) returns (ok: bool, broken: set<InstanceId>)
    requires Sound(m.world)
    modifies m
    ensures Restarted(old(m.world), m.world)
    ensures known <= broken && forall i | i in broken && i !in known :: Missing(old(m.world), i)
    ensures ok ==> forall t | IsTracked(old(m.world.db), t) :: t.1 in m.world.running || t.0 in broken
    ensures ok ==> forall i | i in old(m.world.db.instances) && Missing(old(m.world), i) :: i in broken
    ensures m.reliable && Restartable(old(m.world)) ==> ok
    ensures old(m.crashPoints) <= m.crashPoints
    ensures forall d | d in m.crashPoints :: d in old(m.crashPoints) || Restarted(old(m.world), d)
  {
    hide Sound, Restarted, PortsFree, Restartable, IsStarted;
    ghost var s := m.world;
    RestartedRefl(s);
    RestartedIsSound(s);
    ok, broken := true, known;
    var todo := TrackedContainers(m.world.db);
    while todo != {}
      invariant forall t | t in todo :: IsTracked(s.db, t)
      invariant Restarted(s, m.world)
      invariant known <= broken && forall i | i in broken && i !in known :: Missing(s, i)
      invariant ok ==> forall t | IsTracked(s.db, t) && t !in todo :: t.1 in m.world.running || t.0 in broken
      invariant ok ==> forall t | IsTracked(s.db, t) && t !in todo :: t.1 in s.containers || t.0 in broken
      invariant m.reliable && Restartable(s) ==> ok
      invariant old(m.crashPoints) <= m.crashPoints
      invariant forall d | d in m.crashPoints :: d in old(m.crashPoints) || Restarted(s, d)
    {
      var t :| t in todo;
      todo := todo - {t};
      ghost var mid := m.world;
      RestartedOne(s, mid, t.0, t.1);
      if t.1 in mid.containers && Restartable(mid) { OwnedCanStart(mid, t.0, t.1); }
      var r, isRunning := m.ContainerInspect(t.1);
      if r == Done && !isRunning {
        r := m.ContainerStart(t.1);
        StartedRuns(mid, m.world, t.1);
      }
      if r == NotFound {
        broken := broken + {t.0};
      } else if r != Done {
        ok := false;
      }
    }
    if ok { MissingIsTracked(s, broken); }
  }

  lemma MissingIsTracked(s: World, broken: set<InstanceId>)
    requires forall t | IsTracked(s.db, t) :: t.1 in s.containers || t.0 in broken
    ensures forall i | i in s.db.instances && Missing(s, i) :: i in broken
  {
    forall i | i in s.db.instances && Missing(s, i) ensures i in broken {
      var c :| c in s.db.instances[i].runtime.containers && c !in s.containers;
      assert IsTracked(s.db, (i, c));
    }
  }

  // ------------------------------------------------- removing what is broken

  /** Containers of instance `i` are gone; its rows are all there or all gone. */
  ghost predicate BrokenRemoved(s: World, d: World, i: InstanceId) {
    && i in s.db.instances
    && Gone(s, d) <= s.db.instances[i].runtime.containers
    && (d.db.instances == s.db.instances ||
          (d.db.instances == s.db.instances - {i} && s.db.instances[i].runtime.containers !! d.containers.Keys))
    && d == WithoutContainers(s, Gone(s, d)).(db := s.db.(instances := d.db.instances, retiredNetworks := d.db.retiredNetworks))
    && d.db.retiredNetworks <= s.db.retiredNetworks + {i}
  }

  lemma BrokenRefl(s: World, i: InstanceId)
    requires i in s.db.instances
    ensures BrokenRemoved(s, s, i)
  {
    assert WithoutContainers(s, Gone(s, s)).containers == s.containers;
    assert WithoutContainers(s, Gone(s, s)).running == s.running;
  }

  lemma BrokenStep(s: World, mid: World, i: InstanceId, c: ContainerId)
    requires BrokenRemoved(s, mid, i) && c in s.db.instances[i].runtime.containers
    ensures c in mid.containers ==> BrokenRemoved(s, WithoutContainers(mid, {c}), i)
    ensures WithoutContainers(mid, {c}).containers.Keys == mid.containers.Keys - {c}
    ensures WithoutContainers(mid, {c}).db == mid.db
  {
    if c in mid.containers {
      var d := WithoutContainers(mid, {c});
      assert Gone(s, d) == Gone(s, mid) + {c};
      assert d.containers == s.containers - Gone(s, d);
      assert d.running == s.running - Gone(s, d);
    }
  }

  lemma BrokenRecords(s: World, mid: World, i: InstanceId)
    requires BrokenRemoved(s, mid, i)
    ensures BrokenRemoved(s, mid.(db := mid.db.(retiredNetworks := mid.db.retiredNetworks + {i})), i)
    ensures s.db.instances[i].runtime.containers !! mid.containers.Keys && mid.db.instances == s.db.instances ==>
      BrokenRemoved(s, mid.(db := mid.db.(instances := mid.db.instances - {i})), i)
  {
  }

  lemma SoundBroken(s: World, d: World, i: InstanceId)
    requires Sound(s) && BrokenRemoved(s, d, i)
    ensures Sound(d)
  {
    hide Constraints, BuildsDistinct;
    BuildsOnlyDistinct(s.db, d.db);
    ShrunkConstraints(s.db, d.db);
    forall j | j in d.db.instances
      ensures FitsRuntime(d.containers, d.db.instances[j].runtime)
    {
      FitsFewer(s.containers, d.containers, s.db.instances[j].runtime);
    }
    forall c | c in d.running
      ensures Tracked(d.db, c)
    {
      assert c in d.containers && c in s.running;
      if c !in d.db.retired {
        var j :| j in s.db.instances && c in s.db.instances[j].runtime.containers;
        assert j in d.db.instances;
      }
    }
  }

  lemma BrokenConstraints(s: World, d: World, i: InstanceId)
    requires Sound(s) && BrokenRemoved(s, d, i)
    ensures Constraints(d.db) && Constraints(d.db.(instances := d.db.instances - {i}))
  {
    hide Constraints, BrokenRemoved;
    SoundBroken(s, d, i);
    SoundConstraints(d);
    GoneConstraints(d.db, i, d.db.retired);
    assert d.db.(instances := d.db.instances - {i}, retired := d.db.retired) == d.db.(instances := d.db.instances - {i});
  }

  /**
   Removes a broken instance.  Its rows go only once all of its containers are gone, so a
   removal that fails half-way still looks broken to the next startup.
   */
  method RemoveBrokenInstance(m: Manager, i: InstanceId) returns (ok: bool)
    requires Sound(m.world) && i in m.world.db.instances
    modifies m
    ensures BrokenRemoved(old(m.world), m.world, i)
    ensures if ok then i !in m.world.db.instances else m.world.db.instances == old(m.world.db.instances)
    ensures m.reliable ==> ok && m.world.db.retiredNetworks == old(m.world.db.retiredNetworks)
    ensures old(m.crashPoints) <= m.crashPoints
    ensures forall d | d in m.crashPoints :: d in old(m.crashPoints) || BrokenRemoved(old(m.world), d, i)
  {
    hide *;
    ghost var s := m.world;
    BrokenRefl(s, i);
    ok := true;
    var ids := m.world.db.instances[i].runtime.containers;
    var todo := ids;
    while todo != {}
      invariant todo <= ids && BrokenRemoved(s, m.world, i) && m.world.db == s.db
      invariant ok ==> (ids - todo) !! m.world.containers.Keys
      invariant m.reliable ==> ok
      invariant old(m.crashPoints) <= m.crashPoints
      invariant forall d | d in m.crashPoints :: d in old(m.crashPoints) || BrokenRemoved(s, d, i)
    {
      var c :| c in todo;
      todo := todo - {c};
      BrokenStep(s, m.world, i, c);
      var r := m.ContainerRemove(c);
      ok := ok && (r == Done || r == NotFound);
    }
    if !ok {
      return;
    }
    BrokenRecords(s, m.world, i);
    BrokenConstraints(s, m.world, i);
    var removed := m.NetworkRemove(i);
    if !removed {
      removed := m.Commit(m.world.db.(retiredNetworks := m.world.db.retiredNetworks + {i}));
      if !removed {
        return false;
      }
    }
    BrokenRecords(s, m.world, i);
    BrokenConstraints(s, m.world, i);
    ok := m.Commit(m.world.db.(instances := m.world.db.instances - {i}));
    assert i !in m.world.db.instances || !ok;
  }

  /** What a broken instance ran is nobody else's, so others are left alone. */
  lemma BrokenKeeps(s: World, d: World, i: InstanceId, broken: set<InstanceId>)
    requires Sound(s) && BrokenRemoved(s, d, i) && i in broken
    ensures Kept(s, d, broken) && TablesKept(s, d) && Sound(d) && d.db.retired == s.db.retired
    ensures d.db.instances.Keys <= s.db.instances.Keys && (forall j | j in d.db.instances :: d.db.instances[j] == s.db.instances[j])
    ensures forall j | j in s.db.instances && j != i :: j in d.db.instances
    ensures d.running <= s.running && d.nextId == s.nextId && d.containers.Keys <= s.containers.Keys && d.tags == s.tags
    ensures d.db.retiredNetworks <= s.db.retiredNetworks + {i}
    ensures i !in d.db.instances ==> s.db.instances[i].runtime.containers !! d.containers.Keys
  {
    hide Constraints, BuildsDistinct, FitsRuntime, OwnedOrRetired;
    SoundBroken(s, d, i);
    ConstraintsGiveUniqueContainers(s.db);
  }

  /** After the first pass: what is left of `s`, once the instances in `done` were tried. */
  ghost predicate Swept(s: World, d: World, broken: set<InstanceId>, done: set<InstanceId>, restore: set<BuildId>, ok: bool) {
    && Sound(d) && TablesKept(s, d) && Kept(s, d, broken)
    && d.db.retired == s.db.retired && d.running <= s.running && d.nextId == s.nextId
    && d.containers.Keys <= s.containers.Keys && d.tags == s.tags && d.db.retiredNetworks <= s.db.retiredNetworks + done
    && (forall j | j in s.db.instances && j !in d.db.instances :: s.db.instances[j].runtime.containers !! d.containers.Keys)
    && d.db.instances.Keys <= s.db.instances.Keys
    && (forall j | j in d.db.instances :: d.db.instances[j] == s.db.instances[j])
    && (forall j | j in s.db.instances && j !in done :: j in d.db.instances)
    && (ok ==> forall j | j in done :: j !in d.db.instances)
    && (forall b | b in restore :: Fixed(s.db, b) && HasOneOf(s.db, done, b))
    && (ok ==> forall j | j in done && j in s.db.instances && s.db.instances[j].build in s.db.builds
                          && s.db.builds[s.db.instances[j].build].instanceCount >= 0 :: s.db.instances[j].build in restore)
  }

  ghost predicate HasOneOf(db: Db, ids: set<InstanceId>, b: BuildId) {
    exists i :: i in ids && i in db.instances && db.instances[i].build == b
  }

  lemma SweptFirst(s: World, broken: set<InstanceId>)
    requires Sound(s)
    ensures Swept(s, s, broken, {}, {}, true)
  {
    hide Sound;
  }

  lemma SweptOne(s: World, mid: World, d: World, broken: set<InstanceId>, done: set<InstanceId>, restore: set<BuildId>, ok: bool, i: InstanceId)
    requires Swept(s, mid, broken, done, restore, ok) && i in broken && i in mid.db.instances && i !in done
    requires BrokenRemoved(mid, d, i)
    ensures Swept(s, d, broken, done + {i}, restore, false)
    ensures
      var b := s.db.instances[i].build;
      b in s.db.builds && i !in d.db.instances ==>
        Swept(s, d, broken, done + {i}, if s.db.builds[b].instanceCount >= 0 then restore + {b} else restore, ok)
    ensures d.db.instances.Keys <= mid.db.instances.Keys
  {
    hide Sound, BrokenRemoved, Kept, TablesKept;
    BrokenKeeps(mid, d, i, broken);
    KeptTrans(s, mid, d, broken);
  }

  lemma SweptSkip(s: World, mid: World, broken: set<InstanceId>, done: set<InstanceId>, restore: set<BuildId>, ok: bool, i: InstanceId)
    requires Swept(s, mid, broken, done, restore, ok)
    ensures Swept(s, mid, broken, done + {i}, restore, false)
    ensures i !in done && i in s.db.instances ==>
      && i in mid.db.instances && mid.db.instances[i] == s.db.instances[i]
      && s.db.instances[i].build in s.db.builds && mid.db.builds == s.db.builds
      && (InvalidTarget(s.db, i) <==> s.db.builds[s.db.instances[i].build].instanceCount < -2)
    ensures DYNAMIC_INSTANCES == -1 && LOCKED == -2
  {
    hide FitsRuntime, UniqueBuilds, UniquePorts, UniqueContainers;
  }

  lemma SweptSound(s: World, d: World, broken: set<InstanceId>, done: set<InstanceId>, restore: set<BuildId>, ok: bool)
    requires Swept(s, d, broken, done, restore, ok)
    ensures Sound(d)
  {
  }

  /** Tries to remove every broken instance; `restore` are the fixed builds that lost one. */
  method RemoveBroken(m: Manager, broken: set<InstanceId>) returns (ok: bool, restore: set<BuildId>)
    requires Sound(m.world) && broken <= m.world.db.instances.Keys
    modifies m
    ensures Swept(old(m.world), m.world, broken, broken, restore, ok)
    ensures m.reliable && NoInvalidTarget(old(m.world.db), broken) ==> ok
    ensures ok ==> NoInvalidTarget(old(m.world.db), broken)
    ensures m.reliable ==> forall j | j in broken :: j !in m.world.db.instances
    ensures old(m.crashPoints) <= m.crashPoints
    ensures Recovering(old(m.world), m.world)
    ensures forall d | d in m.crashPoints :: d in old(m.crashPoints) || Recovering(old(m.world), d)
  {
    hide *;
    ghost var s := m.world;
    ok, restore := true, {};
    SweptFirst(s, broken);
    NoTargets(s.db);
    RecoveringSelf(s);
    var todo := broken;
    assert broken - todo == {};
    while todo != {}
      invariant todo <= broken && broken <= s.db.instances.Keys
      invariant Swept(s, m.world, broken, broken - todo, restore, ok)
      invariant m.reliable && NoInvalidTarget(s.db, broken) ==> ok
      invariant ok ==> NoInvalidTarget(s.db, broken - todo)
      invariant m.reliable ==> forall j | j in broken - todo :: j !in m.world.db.instances
      invariant old(m.crashPoints) <= m.crashPoints && Recovering(s, m.world)
      invariant forall d | d in m.crashPoints :: d in old(m.crashPoints) || Recovering(s, d)
    {
      var i :| i in todo;
      ghost var mid := m.world;
      ghost var done := broken - todo;
      todo := todo - {i};
      assert broken - todo == done + {i};
      SweptSkip(s, mid, broken, done, restore, ok, i);
      OneMoreTarget(s.db, broken, done, i);
      SweptSound(s, mid, broken, done, restore, ok);
      var read := m.Query();
      if !read {
        ok := false;
        continue;
      }
      var b := m.world.db.instances[i].build;
      var count := m.world.db.builds[b].instanceCount;
      BrokenRecovers(mid, i);
      RecoveringTrans(s, mid);
      var removed := RemoveBrokenInstance(m, i);
      SweptOne(s, mid, m.world, broken, done, restore, ok, i);
      if !removed {
        ok := false;
        continue;
      }
      if count >= 0 {
        restore := restore + {b};
      } else if count != DYNAMIC_INSTANCES && count != LOCKED {
        ok := false;
      }
    }
    assert broken - {} == broken;
  }

  /** The builds have no negative target but those that mean something. */
  ghost predicate NoInvalidTarget(db: Db, ids: set<InstanceId>) {
    forall i | i in ids :: !InvalidTarget(db, i)
  }

  lemma NoTargets(db: Db)
    ensures NoInvalidTarget(db, {})
  {
  }

  lemma OneMoreTarget(db: Db, broken: set<InstanceId>, done: set<InstanceId>, i: InstanceId)
    requires i in broken
    ensures NoInvalidTarget(db, done) && !InvalidTarget(db, i) ==> NoInvalidTarget(db, done + {i})
    ensures NoInvalidTarget(db, broken) ==> !InvalidTarget(db, i)
  {
    hide InvalidTarget;
  }

  ghost predicate InvalidTarget(db: Db, i: InstanceId) {
    i in db.instances && db.instances[i].build in db.builds && db.builds[db.instances[i].build].instanceCount < LOCKED
  }

  lemma BrokenRecovers(s: World, i: InstanceId)
    requires Sound(s) && i in s.db.instances
    ensures forall d :: BrokenRemoved(s, d, i) ==> Recovering(s, d)
  {
    hide Sound, BrokenRemoved, Consistent;
    forall d | BrokenRemoved(s, d, i) ensures Recovering(s, d) {
      SoundBroken(s, d, i);
      BrokenTables(s, d, i);
      if Consistent(s) { BrokenConsistent(s, d, i); }
    }
  }

  lemma BrokenTables(s: World, d: World, i: InstanceId)
    requires BrokenRemoved(s, d, i)
    ensures TablesKept(s, d)
  {
  }

  lemma BrokenConsistent(s: World, d: World, i: InstanceId)
    requires BrokenRemoved(s, d, i) && Consistent(s)
    ensures Consistent(d)
  {
    hide Consistent;
    LessIsConsistent(s, d);
  }

  // -------------------------------------------------------- lost capacity

  /** A healthy instance of containers created since `s`. */
  ghost predicate Replacement(s: World, d: World, i: InstanceId) {
    Healthy(d, i) && forall c | c in d.db.instances[i].runtime.containers :: c >= s.nextId && AsRecorded(d, d.db.instances[i].runtime, c)
  }

  /** New instances are of build `b`; when `complete`, all of them run. */
  ghost predicate NewOf(s: World, d: World, b: BuildId, complete: bool) {
    forall i | i in d.db.instances && i !in s.db.instances ::
      d.db.instances[i].build == b && (complete ==> Replacement(s, d, i))
  }

  lemma HealthyStays(s: World, d: World, i: InstanceId)
    requires Healthy(s, i) && Preserves(s, d)
    ensures Healthy(d, i) && d.db.instances[i] == s.db.instances[i]
    ensures forall c | c in s.db.instances[i].runtime.containers && c in s.containers && AsRecorded(s, s.db.instances[i].runtime, c) ::
      AsRecorded(d, s.db.instances[i].runtime, c)
  {
    hide AsRecorded, RunsNew;
    forall c | c in s.db.instances[i].runtime.containers && c in s.containers && AsRecorded(s, s.db.instances[i].runtime, c)
      ensures AsRecorded(d, s.db.instances[i].runtime, c)
    {
      SamePicks(s, d, s.db.instances[i].runtime, c);
    }
  }

  lemma NewOfFirst(s: World, b: BuildId)
    ensures NewOf(s, s, b, true) && Preserves(s, s)
  {
  }

  lemma SpawnedIsHealthy(mid: World, d: World, b: BuildId, i: InstanceId, rt: Runtime)
    requires Spawned(mid, d, i, b, rt)
    ensures i in d.db.instances && d.db.instances[i].build == b && Replacement(mid, d, i)
    ensures d.db.retired == mid.db.retired && d.db.retiredNetworks == mid.db.retiredNetworks && Preserves(mid, d)
    ensures d.db.instances.Keys == mid.db.instances.Keys + {i} && i !in mid.db.instances
  {
    hide RuntimeImages, Preserves;
    var row := Instance(b, 0, rt);
    assert d.db.instances[i] == row && d.db.builds == mid.db.builds;
    assert ImagesOfBuild(d.db, b) == |row.runtime.containers|;
  }

  lemma NewOfSpawned(s: World, mid: World, d: World, b: BuildId, i: InstanceId, rt: Runtime)
    requires NewOf(s, mid, b, true) && Preserves(s, mid) && Spawned(mid, d, i, b, rt)
    ensures NewOf(s, d, b, true) && Preserves(s, d) && d.db.retired == mid.db.retired && d.db.retiredNetworks == mid.db.retiredNetworks
    ensures |InstancesOf(d.db, b)| == |InstancesOf(mid.db, b)| + 1
  {
    hide RuntimeImages, Spawned, Healthy;
    SpawnedIsHealthy(mid, d, b, i, rt);
    PreservesTrans(s, mid, d);
    OneMore(mid, d, b, i);
    forall j | j in d.db.instances && j !in s.db.instances
      ensures d.db.instances[j].build == b && Replacement(s, d, j)
    {
      if j != i {
        HealthyStays(mid, d, j);
      }
    }
  }

  lemma OneMore(mid: World, d: World, b: BuildId, i: InstanceId)
    requires Preserves(mid, d) && i !in mid.db.instances && d.db.instances.Keys == mid.db.instances.Keys + {i} && d.db.instances[i].build == b
    ensures |InstancesOf(d.db, b)| == |InstancesOf(mid.db, b)| + 1
  {
    assert InstancesOf(d.db, b) == InstancesOf(mid.db, b) + {i};
  }

  lemma NewOfFailed(s: World, mid: World, d: World, b: BuildId)
    requires NewOf(s, mid, b, true) && Preserves(s, mid) && Preserves(mid, d)
    requires d == mid || exists i, ids :: Failing(mid, d, i, b, ids)
    ensures NewOf(s, d, b, false) && Preserves(s, d)
    ensures d == mid.(nextId := d.nextId) ==> NewOf(s, d, b, true)
  {
    hide RuntimeImages, GrownBy;
    PreservesTrans(s, mid, d);
  }

  lemma FailedAddsOne(mid: World, d: World, b: BuildId)
    requires d == mid || exists i, ids :: Failing(mid, d, i, b, ids)
    ensures |InstancesOf(d.db, b)| <= |InstancesOf(mid.db, b)| + 1
  {
    if d != mid {
      var i, ids :| Failing(mid, d, i, b, ids);
      if d.db.instances != mid.db.instances {
        assert InstancesOf(d.db, b) == InstancesOf(mid.db, b) + {i};
      } else {
        assert InstancesOf(d.db, b) == InstancesOf(mid.db, b);
      }
    }
  }

  function Max(a: int, b: int): (m: int)
    ensures m >= a && m >= b && (m == a || m == b)
  {
    if a >= b then a else b
  }

  /** Brings a fixed build back to its target and never beyond, stopping at the first failure. */
  method RestoreCapacity(m: Manager, b: BuildId, ghost targets: map<BuildId, int>) returns (ok: bool, ghost refused: bool)
    requires m.portLow == 0 || m.portLow <= m.portHigh
    requires Sound(m.world) && b in m.world.db.builds && b in targets && targets[b] == m.world.db.builds[b].instanceCount
    modifies m
    ensures Sound(m.world) && Preserves(old(m.world), m.world)
    ensures NewOf(old(m.world), m.world, b, ok || m.reliable)
    ensures ok ==> |InstancesOf(m.world.db, b)| >= old(m.world.db.builds[b].instanceCount)
    ensures |InstancesOf(m.world.db, b)| <= Max(old(|InstancesOf(m.world.db, b)|), old(m.world.db.builds[b].instanceCount))
    ensures ok || m.reliable ==> m.world.db.retired == old(m.world.db.retired) && m.world.db.retiredNetworks == old(m.world.db.retiredNetworks)
    ensures m.reliable && !refused ==> ok
    ensures
      m.reliable && m.fortunate && CanStaff(old(m.world), m.portLow, m.portHigh, targets) ==>
        !refused && CanStaff(m.world, m.portLow, m.portHigh, targets)
    ensures old(m.crashPoints) <= m.crashPoints
    ensures forall d | d in m.crashPoints :: d in old(m.crashPoints) || Recovering(old(m.world), d)
  {
    hide *;
    ghost var s := m.world;
    refused := false;
    NewOfFirst(s, b);
    var build := m.world.db.builds[b];
    ghost var able := m.reliable && m.fortunate && CanStaff(s, m.portLow, m.portHigh, targets);
    NewOfLess(s, s, b);
    var read := m.Query();
    if !read {
      return false, refused;
    }
    var count := |InstancesOf(m.world.db, b)|;
    while count < build.instanceCount
      invariant Sound(m.world) && Preserves(s, m.world) && NewOf(s, m.world, b, true)
      invariant m.world.db.retired == s.db.retired && m.world.db.retiredNetworks == s.db.retiredNetworks
      invariant count == |InstancesOf(m.world.db, b)| <= Max(|InstancesOf(s.db, b)|, build.instanceCount)
      invariant !refused && (able ==> CanStaff(m.world, m.portLow, m.portHigh, targets))
      invariant old(m.crashPoints) <= m.crashPoints
      invariant forall d | d in m.crashPoints :: d in old(m.crashPoints) || Recovering(s, d)
      decreases build.instanceCount - count
    {
      ghost var mid := m.world;
      PreservesBuilds(s, mid);
      RecoveringPreserves(s, mid);
      IsShort(mid.db, targets, b);
      if able { CanStart(mid, m.portLow, m.portHigh, targets, b); }
      SoundIdsOf(mid);
      var r, clean;
      ghost var rt;
      r, clean, rt := NewInstance(m, b, build);
      if r.None? {
        NewOfFailed(s, mid, m.world, b);
        FailedAddsOne(mid, m.world, b);
        return false, true;
      }
      if able { StaffedByOne(mid, m.world, m.portLow, m.portHigh, targets, r.value, b, rt); }
      NewOfSpawned(s, mid, m.world, b, r.value, rt);
      count := count + 1;
    }
    NewOfLess(s, m.world, b);
    ok := true;
  }

  lemma IsShort(db: Db, targets: map<BuildId, int>, b: BuildId)
    requires b in targets && |InstancesOf(db, b)| < targets[b]
    ensures Short(db, targets, b)
  {
  }

  lemma NewOfLess(s: World, d: World, b: BuildId)
    ensures NewOf(s, d, b, true) ==> NewOf(s, d, b, false)
  {
  }

  lemma PreservesBuilds(s: World, d: World)
    requires Preserves(s, d)
    ensures d.db.builds == s.db.builds
  {
  }

  predicate Fixed(db: Db, b: BuildId) {
    b in db.builds && db.builds[b].instanceCount >= 0
  }

  /** Where the instances of `d` come from: they are as in `s`, or replacements for a fixed
      build.  When `complete`, none that was broken is left and all replacements run. */
  ghost predicate Origins(s: World, d: World, broken: set<InstanceId>, complete: bool) {
    forall i | i in d.db.instances ::
      || (i in s.db.instances && d.db.instances[i] == s.db.instances[i] && (complete ==> i !in broken))
      || (Fixed(s.db, d.db.instances[i].build) && (complete ==> Replacement(s, d, i)))
  }

  /** What reconciling `broken` has achieved when the builds in `done` have been restored. */
  ghost predicate Reconciled(s: World, d: World, broken: set<InstanceId>, done: set<BuildId>, ok: bool, complete: bool) {
    && Sound(d) && TablesKept(s, d) && Kept(s, d, broken)
    && Origins(s, d, broken, complete)
    && (complete ==> d.db.retired == s.db.retired && d.db.retiredNetworks <= s.db.retiredNetworks + broken)
    && (forall j | j in s.db.instances && (j !in d.db.instances || d.db.instances[j] != s.db.instances[j]) ::
          s.db.instances[j].runtime.containers !! d.containers.Keys)
    && (forall c | c in d.containers && c !in s.containers :: c >= s.nextId)
    && (ok ==> forall b | b in done && b in s.db.builds :: |InstancesOf(d.db, b)| >= s.db.builds[b].instanceCount)
  }

  lemma SweptIsReconciled(s: World, d: World, broken: set<InstanceId>, restore: set<BuildId>, ok: bool, complete: bool)
    requires Swept(s, d, broken, broken, restore, ok) && (complete ==> forall j | j in broken :: j !in d.db.instances)
    ensures Reconciled(s, d, broken, {}, ok, complete)
  {
    hide Sound, Kept, TablesKept;
  }

  lemma MoreInstances(s: World, d: World, b: BuildId)
    requires Preserves(s, d)
    ensures |InstancesOf(d.db, b)| >= |InstancesOf(s.db, b)|
  {
    var more := InstancesOf(d.db, b) - InstancesOf(s.db, b);
    assert InstancesOf(d.db, b) == InstancesOf(s.db, b) + more;
    assert |InstancesOf(d.db, b)| == |InstancesOf(s.db, b)| + |more|;
  }

  lemma OriginsOn(s: World, mid: World, d: World, broken: set<InstanceId>, b: BuildId, complete: bool)
    requires Origins(s, mid, broken, complete) && TablesKept(s, mid) && Fixed(s.db, b)
    requires Preserves(mid, d) && NewOf(mid, d, b, complete) && forall c | c in mid.running :: c in mid.containers
    ensures Origins(s, d, broken, complete)
  {
    hide AsRecorded, RunsNew;
    forall i | i in d.db.instances && i in mid.db.instances && complete && Replacement(s, mid, i)
      ensures Replacement(s, d, i)
    {
      HealthyStays(mid, d, i);
    }
  }

  lemma RunningExist(w: World)
    requires Sound(w)
    ensures forall c | c in w.running :: c in w.containers
  {
  }

  lemma ReconciledOn(s: World, mid: World, d: World, broken: set<InstanceId>, done: set<BuildId>, b: BuildId, ok: bool, ok': bool, complete: bool, complete': bool)
    requires IdsIssued(s) && Reconciled(s, mid, broken, done, ok, complete) && Fixed(s.db, b)
    requires Sound(d) && Preserves(mid, d) && NewOf(mid, d, b, complete')
    requires complete' ==> complete && d.db.retired == mid.db.retired && d.db.retiredNetworks == mid.db.retiredNetworks
    requires ok' ==> ok && |InstancesOf(d.db, b)| >= s.db.builds[b].instanceCount
    ensures Reconciled(s, d, broken, done + {b}, ok', complete')
  {
    hide Sound, NewOf, Healthy, IdsIssued;
    PreservesKeeps(mid, d, broken);
    KeptTrans(s, mid, d, broken);
    OriginsLess(s, mid, broken, complete, complete');
    RunningExist(mid);
    OriginsOn(s, mid, d, broken, b, complete');
    forall x | x in done && x in s.db.builds && ok'
      ensures |InstancesOf(d.db, x)| >= s.db.builds[x].instanceCount
    {
      MoreInstances(mid, d, x);
    }
    ContainersOn(s, mid, d);
  }

  lemma OriginsLess(s: World, d: World, broken: set<InstanceId>, complete: bool, complete': bool)
    requires Origins(s, d, broken, complete) && (complete' ==> complete)
    ensures Origins(s, d, broken, complete')
  {
    hide Healthy;
  }

  lemma ContainersOn(s: World, mid: World, d: World)
    requires IdsIssued(s) && Preserves(mid, d) && TablesKept(s, mid)
    requires forall j | j in s.db.instances && (j !in mid.db.instances || mid.db.instances[j] != s.db.instances[j]) ::
      s.db.instances[j].runtime.containers !! mid.containers.Keys
    requires forall c | c in mid.containers && c !in s.containers :: c >= s.nextId
    ensures forall c | c in d.containers && c !in s.containers :: c >= s.nextId
    ensures forall j | j in s.db.instances && (j !in d.db.instances || d.db.instances[j] != s.db.instances[j]) ::
      s.db.instances[j].runtime.containers !! d.containers.Keys
  {
    forall j, c | j in s.db.instances && (j !in d.db.instances || d.db.instances[j] != s.db.instances[j])
                  && c in s.db.instances[j].runtime.containers
      ensures c !in d.containers
    {
      assert c < s.nextId;
      assert j in mid.db.instances ==> j in d.db.instances && d.db.instances[j] == mid.db.instances[j];
    }
  }

  lemma ReconciledStep(s: World, mid: World, d: World, broken: set<InstanceId>, done: set<BuildId>, b: BuildId, ok: bool, restored: bool, reliable: bool)
    requires IdsIssued(s) && Reconciled(s, mid, broken, done, ok, ok || reliable) && Fixed(s.db, b)
    requires Sound(d) && Preserves(mid, d) && NewOf(mid, d, b, restored || reliable)
    requires restored || reliable ==> d.db.retired == mid.db.retired && d.db.retiredNetworks == mid.db.retiredNetworks
    requires restored ==> |InstancesOf(d.db, b)| >= s.db.builds[b].instanceCount
    ensures Reconciled(s, d, broken, done + {b}, ok && restored, (ok && restored) || reliable)
  {
    hide Sound, Origins, Healthy, IdsIssued, Kept, TablesKept, Preserves;
    NewOfWeaker(mid, d, b, restored || reliable, (ok && restored) || reliable);
    ReconciledOn(s, mid, d, broken, done, b, ok, ok && restored, ok || reliable, (ok && restored) || reliable);
  }

  lemma NewOfWeaker(s: World, d: World, b: BuildId, complete: bool, complete': bool)
    requires NewOf(s, d, b, complete) && (complete' ==> complete)
    ensures NewOf(s, d, b, complete')
  {
    hide Healthy;
  }

  /** A broken instance of a fixed build asks for the build's target. */
  ghost predicate TargetsMet(s: World, d: World, broken: set<InstanceId>) {
    forall i | i in broken && i in s.db.instances && Fixed(s.db, s.db.instances[i].build) ::
      |InstancesOf(d.db, s.db.instances[i].build)| >= s.db.builds[s.db.instances[i].build].instanceCount
  }

  lemma RestoreMeetsTargets(s: World, mid: World, d: World, broken: set<InstanceId>, restore: set<BuildId>, complete: bool)
    requires Swept(s, mid, broken, broken, restore, true) && Reconciled(s, d, broken, restore, true, complete)
    ensures TargetsMet(s, d, broken)
  {
    hide Sound, Kept, Origins, TablesKept;
  }

  lemma ReconciledParts(s: World, d: World, broken: set<InstanceId>, done: set<BuildId>, ok: bool, complete: bool)
    requires Reconciled(s, d, broken, done, ok, complete)
    ensures Sound(d) && d.db.builds == s.db.builds
  {
    hide Sound, Kept, Origins;
  }

  lemma SweptRestores(s: World, d: World, broken: set<InstanceId>, restore: set<BuildId>, ok: bool)
    requires Swept(s, d, broken, broken, restore, ok)
    ensures forall b | b in restore :: Fixed(s.db, b) && b in s.db.builds
  {
    hide Sound, Kept, TablesKept;
  }

  /**
   Removes broken instances and brings the fixed builds that lost one back to capacity.
   Builds with user-created instances, and locked ones, regain nothing.
   */
  method ReconcileBrokenInstances(m: Manager, broken: set<InstanceId>) returns (ok: bool, ghost restore: set<BuildId>, ghost refused: bool)
    requires m.portLow == 0 || m.portLow <= m.portHigh
    requires Sound(m.world) && broken <= m.world.db.instances.Keys
    modifies m
    ensures Reconciled(old(m.world), m.world, broken, restore, ok, ok || m.reliable)
    ensures ok ==> TargetsMet(old(m.world), m.world, broken)
    ensures m.reliable && NoInvalidTarget(old(m.world.db), broken) && !refused ==> ok
    ensures ok ==> NoInvalidTarget(old(m.world.db), broken)
    ensures
      var able := Restartable(old(m.world)) && CanRestore(old(m.world), m.portLow, m.portHigh, broken);
      m.reliable && m.fortunate && able ==> !refused
    ensures Recovering(old(m.world), m.world)
    ensures old(m.crashPoints) <= m.crashPoints
    ensures forall d | d in m.crashPoints :: d in old(m.crashPoints) || Recovering(old(m.world), d)
  {
    hide *;
    ghost var s := m.world;
    refused := false;
    SoundIdsOf(s);
    var builds;
    ok, builds := RemoveBroken(m, broken);
    ghost var mid := m.world;
    ghost var sweptOk := ok;
    ghost var targets := Lost(s.db, broken);
    ghost var able := m.reliable && m.fortunate && Restartable(s) && CanRestore(s, m.portLow, m.portHigh, broken);
    if able { SweptCanStaff(s, mid, m.portLow, m.portHigh, broken, builds, ok); }
    SweptLost(s, mid, broken, builds, ok);
    SweptClears(s, mid, broken, builds, ok);
    SweptIsReconciled(s, mid, broken, builds, ok, ok || m.reliable);
    SweptRestores(s, mid, broken, builds, ok);
    restore := {};
    var todo := builds;
    while todo != {}
      invariant todo <= builds && restore == builds - todo
      invariant Reconciled(s, m.world, broken, restore, ok, ok || m.reliable)
      invariant ok ==> sweptOk && NoInvalidTarget(s.db, broken)
      invariant m.reliable && sweptOk && !refused ==> ok
      invariant able ==> !refused && CanStaff(m.world, m.portLow, m.portHigh, targets)
      invariant old(m.crashPoints) <= m.crashPoints && Recovering(s, m.world)
      invariant forall d | d in m.crashPoints :: d in old(m.crashPoints) || Recovering(s, d)
    {
      var b :| b in todo;
      ghost var now := m.world;
      ReconciledParts(s, now, broken, restore, ok, ok || m.reliable);
      PreservesSelf(now);
      RecoveringPreserves(now, now);
      RecoveringTrans(s, now);
      var restored;
      ghost var stuck;
      restored, stuck := RestoreCapacity(m, b, targets);
      refused := refused || stuck;
      ReconciledStep(s, now, m.world, broken, restore, b, ok, restored, m.reliable);
      todo := todo - {b};
      restore := restore + {b};
      ok := ok && restored;
    }
    assert builds - {} == builds;
    if ok { RestoreMeetsTargets(s, mid, m.world, broken, builds, true); }
  }

  /** The targets of the fixed builds that have an instance among `broken`. */
  ghost function Lost(db: Db, broken: set<InstanceId>): map<BuildId, int> {
    map b | b in db.builds && Fixed(db, b) && HasOneOf(db, broken, b) :: db.builds[b].instanceCount
  }

  /** Once the instances in `broken` are gone there are the images and ports to make up for them. */
  ghost predicate CanRestore(w: World, low: nat, high: nat, broken: set<InstanceId>) {
    CanStaff(w.(db := w.db.(instances := w.db.instances - broken), running := {}), low, high, Lost(w.db, broken))
  }

  lemma SweptLost(s: World, d: World, broken: set<InstanceId>, restore: set<BuildId>, ok: bool)
    requires Swept(s, d, broken, broken, restore, ok)
    ensures forall b | b in restore :: b in Lost(s.db, broken) && Lost(s.db, broken)[b] == s.db.builds[b].instanceCount
  {
    hide Sound, Kept, TablesKept;
  }

  lemma SweptCanStaff(s: World, d: World, low: nat, high: nat, broken: set<InstanceId>, restore: set<BuildId>, ok: bool)
    requires Sound(s) && Restartable(s) && Swept(s, d, broken, broken, restore, ok) && forall j | j in broken :: j !in d.db.instances
    requires CanRestore(s, low, high, broken)
    ensures CanStaff(d, low, high, Lost(s.db, broken))
  {
    hide Sound, Kept, Restartable, CanStaff, Fixed, HasOneOf;
    SweptRestartable(s, d, broken, restore, ok);
    RestartableIsQuiet(d);
    QuietHolds(d);
    assert d.db.instances == s.db.instances - broken;
    StaffedAlike(s.(db := s.db.(instances := s.db.instances - broken), running := {}), d, low, high, Lost(s.db, broken));
  }

  lemma SweptRestartable(s: World, d: World, broken: set<InstanceId>, restore: set<BuildId>, ok: bool)
    requires Sound(s) && Restartable(s) && Swept(s, d, broken, broken, restore, ok) && forall j | j in broken :: j !in d.db.instances
    ensures Restartable(d) && Sound(d)
  {
    hide Constraints, BuildsDistinct, OwnedOrRetired, FitsRuntime, Kept, Fixed, HasOneOf;
    forall c | c in d.running
      ensures Owned(d.db, c)
    {
      assert Owned(s.db, c) && c in d.containers;
      var i :| i in s.db.instances && c in s.db.instances[i].runtime.containers;
      assert i in d.db.instances && d.db.instances[i] == s.db.instances[i];
    }
  }

  /** In a quiet world nobody holds a port that is not on record. */
  lemma QuietHolds(w: World)
    requires Quiet(w)
    ensures HeldPorts(w) <= UsedPorts(w.db)
  {
  }

  lemma SweptClears(s: World, d: World, broken: set<InstanceId>, restore: set<BuildId>, ok: bool)
    requires Swept(s, d, broken, broken, restore, ok)
    ensures ok ==> forall j | j in broken :: j !in d.db.instances
  {
    hide Sound, Kept, TablesKept;
  }

  // -------------------------------------------------------------- startup

  ghost predicate Broken(w: World, i: InstanceId) {
    Incomplete(w.db, i) || Missing(w, i)
  }

  ghost function AllBroken(w: World): set<InstanceId> {
    set i | i in w.db.instances && Broken(w, i)
  }

  /** What startup recovery promises when it reports no error. */
  ghost predicate Recovered(s: World, d: World) {
    && d.db.retired == {} && d.db.retiredNetworks <= AllBroken(s)
    && (forall i | i in d.db.instances :: Healthy(d, i))
    && (forall i | i in d.db.instances :: Survivor(s, d, i) || Fixed(s.db, d.db.instances[i].build))
    && (forall i | i in s.db.instances && Fixed(s.db, s.db.instances[i].build) && !Survivor(s, d, i) ::
          |InstancesOf(d.db, s.db.instances[i].build)| >= s.db.builds[s.db.instances[i].build].instanceCount)
    && CameThrough(s, d)
  }

  /** An instance that went through recovery unchanged. */
  ghost predicate Survivor(s: World, d: World, i: InstanceId) {
    i in s.db.instances && i in d.db.instances && d.db.instances[i] == s.db.instances[i] && !Broken(s, i)
  }

  /** Whatever happens, what is not broken stays, what is taken away is gone with its
      containers, and nothing but instances changes. */
  ghost predicate RecoveredOthers(s: World, d: World) {
    && Sound(d) && TablesKept(s, d)
    && (forall i | i in s.db.instances && !Broken(s, i) :: Survivor(s, d, i))
    && (forall i | i in s.db.instances && (i !in d.db.instances || d.db.instances[i] != s.db.instances[i]) ::
          s.db.instances[i].runtime.containers !! d.containers.Keys)
  }

  /** Every intact instance runs, and what was tracked and still exists belongs to one. */
  ghost predicate CameThrough(s: World, d: World) {
    && d.db.retired == {}
    && RecoveredOthers(s, d)
    && (forall i | i in s.db.instances && !Broken(s, i) :: s.db.instances[i].runtime.containers <= d.running)
    && (forall c | c in d.containers && c in s.containers && Tracked(s.db, c) ::
          exists i :: Survivor(s, d, i) && c in s.db.instances[i].runtime.containers)
  }

  /** With no faults, moreover, every instance that was not intact is replaced or gone. */
  ghost predicate RecoveredExactly(s: World, d: World) {
    CameThrough(s, d) && forall i | i in d.db.instances :: Survivor(s, d, i) || Replacement(s, d, i)
  }

  lemma ReapedRetired(s: World, d: World)
    requires Sound(s) && Reaped(s, d, s.db.retired)
    ensures Sound(d) && TablesKept(s, d) && d.db.instances == s.db.instances && d.nextId == s.nextId
    ensures s.db.retired !! d.containers.Keys && s.db.retired !! d.db.retired ==> d.db.retired == {} && (AllPinned(s) ==> Restartable(d))
    ensures forall i | i in s.db.instances :: Broken(d, i) <==> Broken(s, i)
    ensures d.containers.Keys <= s.containers.Keys && d.tags == s.tags
  {
    hide Constraints, FitsRuntime, BuildsDistinct, RuntimeImages;
    assert forall c | c in s.db.retired :: !Owned(s.db, c);
    SoundReaped(s, d, s.db.retired);
    assert d.db == s.db.(retired := d.db.retired);
    if s.db.retired !! d.db.retired { assert d.db.retired == {}; }
    forall i | i in s.db.instances
      ensures Missing(d, i) <==> Missing(s, i)
    {
      assert forall c | c in s.db.instances[i].runtime.containers :: c in s.containers <==> c in d.containers;
    }
  }

  lemma AllReaped(s: World)
    requires Sound(s)
    ensures forall d :: Reaped(s, d, s.db.retired) ==> Recovering(s, d)
  {
    hide Sound, Reaped, Consistent;
    forall d | Reaped(s, d, s.db.retired) ensures Recovering(s, d) {
      ReapedRetired(s, d);
      if Consistent(s) { ReapedConsistent(s, d, s.db.retired); }
    }
  }

  lemma ReapedConsistent(s: World, d: World, ids: set<ContainerId>)
    requires Reaped(s, d, ids) && Consistent(s)
    ensures Consistent(d)
  {
    hide Consistent;
    LessIsConsistent(s, d);
  }

  lemma NetworksConsistent(s: World, d: World)
    requires d == s.(db := s.db.(retiredNetworks := d.db.retiredNetworks)) && Sound(d)
    ensures Recovering(s, d)
  {
    hide Consistent, Sound;
    if Consistent(s) { LessIsConsistent(s, d); }
  }

  /** Forgets networks that are gone. */
  method RemoveRetiredNetworks(m: Manager) returns (ok: bool)
    requires Sound(m.world)
    modifies m
    ensures m.world == old(m.world).(db := old(m.world.db).(retiredNetworks := m.world.db.retiredNetworks))
    ensures Sound(m.world)
    ensures m.world.db.retiredNetworks <= old(m.world.db.retiredNetworks) && (ok ==> m.world.db.retiredNetworks == {})
    ensures m.reliable ==> ok
    ensures Recovering(old(m.world), m.world)
    ensures old(m.crashPoints) <= m.crashPoints
    ensures forall d | d in m.crashPoints :: d in old(m.crashPoints) || Recovering(old(m.world), d)
  {
    hide *;
    ghost var s := m.world;
    ok := true;
    RecoveringSelf(s);
    var todo := m.world.db.retiredNetworks;
    while todo != {}
      invariant m.world == s.(db := s.db.(retiredNetworks := m.world.db.retiredNetworks)) && Sound(m.world)
      invariant todo <= m.world.db.retiredNetworks <= s.db.retiredNetworks
      invariant ok ==> m.world.db.retiredNetworks <= todo
      invariant m.reliable ==> ok
      invariant old(m.crashPoints) <= m.crashPoints && Recovering(s, m.world)
      invariant forall d | d in m.crashPoints :: d in old(m.crashPoints) || Recovering(s, d)
    {
      var i :| i in todo;
      todo := todo - {i};
      NetworksIgnored(m.world, m.world.db.retiredNetworks - {i});
      SoundConstraints(m.world.(db := m.world.db.(retiredNetworks := m.world.db.retiredNetworks - {i})));
      var removed := m.NetworkRemove(i);
      if removed {
        removed := m.Commit(m.world.db.(retiredNetworks := m.world.db.retiredNetworks - {i}));
      }
      NetworksConsistent(s, m.world);
      ok := ok && removed;
    }
  }

  /** What is known once retired things were removed and tracked containers started. */
  ghost predicate Examined(s: World, d: World, broken: set<InstanceId>, ok: bool) {
    && Sound(d) && TablesKept(s, d) && d.db.instances == s.db.instances && d.nextId == s.nextId
    && d.containers.Keys <= s.containers.Keys && d.tags == s.tags
    && broken <= s.db.instances.Keys && (forall i | i in broken :: Broken(s, i))
    && (ok ==>
          && d.db.retired == {} && s.db.retired !! d.containers.Keys
          && (forall i | i in s.db.instances && Broken(s, i) :: i in broken)
          && (forall t | IsTracked(s.db, t) :: t.1 in d.running || t.0 in broken))
  }

  lemma ExaminedOnly(s: World, mid: World, d: World, broken: set<InstanceId>, cleaned: bool, known: bool, restarted: bool)
    requires Sound(mid) && TablesKept(s, mid) && mid.db.instances == s.db.instances && mid.nextId == s.nextId
    requires mid.containers.Keys <= s.containers.Keys && mid.tags == s.tags
    requires forall i | i in s.db.instances :: Broken(mid, i) <==> Broken(s, i)
    requires cleaned ==> mid.db.retired == {} && s.db.retired !! mid.containers.Keys
    requires Restarted(mid, d) && Sound(d)
    requires forall i | i in broken :: i in mid.db.instances && Broken(mid, i)
    requires known ==> IncompleteInstanceIDs(mid.db) <= broken
    requires restarted ==> forall t | IsTracked(mid.db, t) :: t.1 in d.running || t.0 in broken
    requires restarted ==> forall i | i in mid.db.instances && Missing(mid, i) :: i in broken
    ensures Examined(s, d, broken, cleaned && known && restarted)
  {
    hide Sound, Missing;
    forall i | i in s.db.instances && Broken(s, i) && known && restarted
      ensures i in broken
    {
      assert Broken(mid, i);
      if Incomplete(mid.db, i) { assert i in IncompleteInstanceIDs(mid.db); }
    }
  }

  lemma NetworksExamined(s: World, mid: World, d: World, cleaned: bool)
    requires Sound(mid) && TablesKept(s, mid) && mid.db.instances == s.db.instances && mid.nextId == s.nextId
    requires mid.containers.Keys <= s.containers.Keys && mid.tags == s.tags
    requires forall i | i in s.db.instances :: Broken(mid, i) <==> Broken(s, i)
    requires d == mid.(db := mid.db.(retiredNetworks := d.db.retiredNetworks)) && Sound(d)
    ensures TablesKept(s, d) && d.db.instances == s.db.instances && d.nextId == s.nextId && d.containers == mid.containers && d.tags == s.tags
    ensures forall i | i in s.db.instances :: Broken(d, i) <==> Broken(s, i)
    ensures Restartable(mid) ==> Restartable(d)
    ensures d.db.retired == mid.db.retired
  {
    hide Sound, RuntimeImages;
    forall i | i in s.db.instances
      ensures Broken(d, i) <==> Broken(mid, i)
    {
      assert Missing(d, i) <==> Missing(mid, i);
      assert ImagesOfBuild(d.db, d.db.instances[i].build) == ImagesOfBuild(mid.db, mid.db.instances[i].build);
    }
    if Restartable(mid) { forall c | c in d.running ensures Owned(d.db, c) { assert Owned(mid.db, c); } }
  }

  lemma NothingBroken(s: World)
    requires Sound(s)
    ensures Reconciled(s, s, {}, {}, true, true) && TargetsMet(s, s, {})
  {
    hide Sound;
  }

  lemma SameBroken(s: World)
    ensures TablesKept(s, s) && (forall i | i in s.db.instances :: Broken(s, i) <==> Broken(s, i))
  {
  }

  lemma IncompleteAreBroken(w: World)
    ensures IncompleteInstanceIDs(w.db) <= w.db.instances.Keys
    ensures forall i | i in IncompleteInstanceIDs(w.db) :: i in w.db.instances && Broken(w, i)
    ensures forall i | Missing(w, i) :: i in w.db.instances && Broken(w, i)
  {
  }

  lemma RecoveredRest(s: World, mid: World, d: World, broken: set<InstanceId>, restore: set<BuildId>, examined: bool, ok: bool, complete: bool)
    requires Examined(s, mid, broken, examined) && Reconciled(mid, d, broken, restore, ok, complete)
    ensures RecoveredOthers(s, d)
  {
    hide Sound, Broken, Origins;
    forall i | i in s.db.instances && !Broken(s, i)
      ensures Survivor(s, d, i)
    {
      assert i !in broken && i in mid.db.instances;
    }
  }

  lemma RecoveredFully(s: World, mid: World, d: World, broken: set<InstanceId>, restore: set<BuildId>)
    requires mid.db.retiredNetworks == {}
    requires IdsIssued(s) && Examined(s, mid, broken, true) && Reconciled(mid, d, broken, restore, true, true) && TargetsMet(mid, d, broken)
    ensures Recovered(s, d)
  {
    hide Sound, RuntimeImages, Missing, CameThrough, AsRecorded;
    RecoveredRest(s, mid, d, broken, restore, true, true, true);
    AllCameThrough(s, mid, d, broken, restore, true);
    forall i | i in d.db.instances
      ensures Healthy(d, i) && (Survivor(s, d, i) || Fixed(s.db, d.db.instances[i].build))
    {
      if i in mid.db.instances && d.db.instances[i] == mid.db.instances[i] && i !in broken {
        SurvivorRuns(s, mid, d, broken, i);
      }
    }
    forall i | i in s.db.instances && Fixed(s.db, s.db.instances[i].build) && !Survivor(s, d, i)
      ensures |InstancesOf(d.db, s.db.instances[i].build)| >= s.db.builds[s.db.instances[i].build].instanceCount
    {
      assert Broken(s, i);
    }
  }

  lemma SurvivorRuns(s: World, mid: World, d: World, broken: set<InstanceId>, i: InstanceId)
    requires Examined(s, mid, broken, true) && Kept(mid, d, broken) && TablesKept(mid, d)
    requires i in s.db.instances && i !in broken
    ensures Survivor(s, d, i) && Healthy(d, i) && s.db.instances[i].runtime.containers <= d.running
  {
    hide Sound, RuntimeImages, Missing;
    assert !Broken(s, i);
    forall c | c in s.db.instances[i].runtime.containers
      ensures c in d.running
    {
      assert IsTracked(s.db, (i, c));
    }
    assert ImagesOfBuild(d.db, d.db.instances[i].build) == ImagesOfBuild(s.db, s.db.instances[i].build);
  }

  lemma RecoveredReliably(s: World, mid: World, d: World, broken: set<InstanceId>, restore: set<BuildId>, ok: bool)
    requires IdsIssued(s) && Examined(s, mid, broken, true) && Reconciled(mid, d, broken, restore, ok, true)
    ensures RecoveredExactly(s, d)
  {
    hide Sound, RuntimeImages, Missing, Healthy, CameThrough, AsRecorded;
    AllCameThrough(s, mid, d, broken, restore, ok);
    forall i | i in d.db.instances
      ensures Survivor(s, d, i) || Replacement(s, d, i)
    {
      if i in mid.db.instances && d.db.instances[i] == mid.db.instances[i] && i !in broken {
        SurvivorRuns(s, mid, d, broken, i);
      }
    }
  }

  lemma AllCameThrough(s: World, mid: World, d: World, broken: set<InstanceId>, restore: set<BuildId>, ok: bool)
    requires IdsIssued(s) && Examined(s, mid, broken, true) && Reconciled(mid, d, broken, restore, ok, true)
    ensures CameThrough(s, d)
  {
    hide Sound, RuntimeImages, Missing, Healthy, AsRecorded;
    RecoveredRest(s, mid, d, broken, restore, true, ok, true);
    forall i | i in s.db.instances && !Broken(s, i)
      ensures s.db.instances[i].runtime.containers <= d.running
    {
      SurvivorRuns(s, mid, d, broken, i);
    }
    forall c | c in d.containers && c in s.containers && Tracked(s.db, c)
      ensures exists i :: Survivor(s, d, i) && c in s.db.instances[i].runtime.containers
    {
      TrackedSurvives(s, mid, d, broken, restore, ok, c);
    }
  }

  lemma TrackedSurvives(s: World, mid: World, d: World, broken: set<InstanceId>, restore: set<BuildId>, ok: bool, c: ContainerId)
    requires IdsIssued(s) && Examined(s, mid, broken, true) && Reconciled(mid, d, broken, restore, ok, true)
    requires c in d.containers && c in s.containers && Tracked(s.db, c)
    ensures exists i :: Survivor(s, d, i) && c in s.db.instances[i].runtime.containers
  {
    hide Sound, RuntimeImages, Missing, Healthy, Broken;
    assert c < s.nextId;
    assert c in mid.containers;
    var i :| i in s.db.instances && c in s.db.instances[i].runtime.containers;
    assert i in d.db.instances && d.db.instances[i] == s.db.instances[i];
    assert !Replacement(mid, d, i);
    assert i !in broken;
    assert Survivor(s, d, i);
  }

  /** Retries what earlier runs could not finish and repairs what they left broken. */
  method RetryRetiredResources(m: Manager) returns (ok: bool, ghost refused: bool)
    requires m.portLow == 0 || m.portLow <= m.portHigh
    requires Sound(m.world)
    modifies m
    ensures RecoveredOthers(old(m.world), m.world)
    ensures ok ==> Recovered(old(m.world), m.world)
    ensures m.reliable && AllPinned(old(m.world)) ==> RecoveredExactly(old(m.world), m.world) && Quiet(m.world)
    ensures m.reliable && AllPinned(old(m.world)) && NoInvalidTarget(old(m.world.db), AllBroken(old(m.world))) && !refused ==> ok
    ensures ok ==> NoInvalidTarget(old(m.world.db), AllBroken(old(m.world)))
    ensures (forall i | i in old(m.world.db.instances) :: !Broken(old(m.world), i)) ==> !refused
    ensures
      var able := AllPinned(old(m.world)) && CanRestore(old(m.world), m.portLow, m.portHigh, AllBroken(old(m.world)));
      m.reliable && m.fortunate && able ==> !refused
    ensures Recovering(old(m.world), m.world)
    ensures old(m.crashPoints) <= m.crashPoints
    ensures forall d | d in m.crashPoints :: d in old(m.crashPoints) || Recovering(old(m.world), d)
  {
    hide *;
    ghost var s := m.world;
    refused := false;
    RecoveringSelf(s);
    SoundIdsOf(s);
    SoundConstraints(s);
    SameBroken(s);
    var cleaned := m.Query();
    if cleaned {
      AllReaped(s);
      cleaned := RemoveRetiredContainerIDs(m, m.world.db.retired);
      ReapedRetired(s, m.world);
    }
    ghost var s1 := m.world;
    RecoveringTrans(s, s1);
    var forgotten := m.Query();
    if forgotten {
      forgotten := RemoveRetiredNetworks(m);
    }
    ghost var s2 := m.world;
    RecoveringTrans(s, s2);
    NetworksExamined(s, s1, s2, cleaned);
    var listed := m.Query();
    IncompleteAreBroken(s2);
    var broken := if listed then IncompleteInstanceIDs(m.world.db) else {};
    RestartedRefl(s2);
    RestartedIsSound(s2);
    var restarted := m.Query();
    if restarted {
      restarted, broken := RestartTracked(m, broken);
    }
    ghost var s3 := m.world;
    RecoveringTrans(s, s3);
    ExaminedOnly(s, s2, s3, broken, cleaned, listed, restarted);
    ok := cleaned && forgotten && listed && restarted;
    ghost var examined := cleaned && listed && restarted;
    NothingBroken(s3);
    ghost var restore: set<BuildId> := {};
    var reconciled := true;
    TargetsValid(s, s3, broken, examined);
    if broken != {} {
      ExaminedBroken(s, s3, broken, examined);
      ExaminedCanRestore(s, s3, m.portLow, m.portHigh, broken, examined);
      reconciled, restore, refused := ReconcileBrokenInstances(m, broken);
    }
    RecoveredRest(s, s3, m.world, broken, restore, examined, reconciled, reconciled || m.reliable);
    if ok && reconciled { RecoveredFully(s, s3, m.world, broken, restore); }
    if m.reliable && AllPinned(s) {
      RecoveredReliably(s, s3, m.world, broken, restore, reconciled);
      RecoveredIsQuiet(s, m.world);
    }
    ok := ok && reconciled;
  }

  lemma ExaminedCanRestore(s: World, d: World, low: nat, high: nat, broken: set<InstanceId>, ok: bool)
    requires Examined(s, d, broken, ok)
    ensures ok ==> broken == AllBroken(s)
    ensures ok && CanRestore(s, low, high, AllBroken(s)) ==> CanRestore(d, low, high, broken)
  {
    hide Sound, Broken, CanStaff, InstancesOf;
    if ok && CanRestore(s, low, high, AllBroken(s)) {
      assert broken == AllBroken(s) && Lost(d.db, broken) == Lost(s.db, broken);
      var w, e := s.(db := s.db.(instances := s.db.instances - broken), running := {}), d.(db := d.db.(instances := d.db.instances - broken), running := {});
      assert HeldPorts(e) == {};
      StaffedAlike(w, e, low, high, Lost(s.db, broken));
    }
  }

  lemma TargetsValid(s: World, d: World, broken: set<InstanceId>, ok: bool)
    requires Examined(s, d, broken, ok)
    ensures NoInvalidTarget(s.db, AllBroken(s)) ==> NoInvalidTarget(d.db, broken)
    ensures ok && NoInvalidTarget(d.db, broken) ==> NoInvalidTarget(s.db, AllBroken(s))
    ensures (forall i | i in s.db.instances :: !Broken(s, i)) ==> broken == {}
    ensures broken == {} ==> NoInvalidTarget(d.db, broken)
  {
    hide Sound, Broken;
    assert broken <= AllBroken(s) && (ok ==> broken == AllBroken(s));
  }

  lemma ExaminedBroken(s: World, d: World, broken: set<InstanceId>, ok: bool)
    requires Examined(s, d, broken, ok)
    ensures broken <= d.db.instances.Keys && Sound(d)
  {
  }

  /** After a recovery without faults only owned containers run, on the ports on record, so
      nothing holds a port that an owned container could ask for. */
  lemma RecoveredIsQuiet(s: World, d: World)
    requires IdsIssued(s) && AllPinned(s) && RecoveredExactly(s, d)
    ensures Quiet(d)
  {
    hide Constraints, FitsRuntime, BuildsDistinct, OwnedOrRetired, Broken, Healthy, AsRecorded;
    forall c | c in d.running
      ensures Placed(d, c)
    {
      assert Tracked(d.db, c) && Owned(d.db, c);
      var i :| i in d.db.instances && c in d.db.instances[i].runtime.containers;
      if Survivor(s, d, i) {
        assert Pinned(s.containers, s.db.instances[i].runtime.containers);
        assert c < s.nextId && d.containers[c] == s.containers[c];
        SoundFits(d, i);
        PinnedAsRecorded(d, d.db.instances[i].runtime, c);
      }
    }
  }

  lemma SoundFits(d: World, i: InstanceId)
    requires Sound(d) && i in d.db.instances
    ensures FitsRuntime(d.containers, d.db.instances[i].runtime)
  {
  }

  // -------------------------------------------- recovering from a crashed cutover

  /** Instance `i` runs exactly what it ran in `base`, or exactly the whole candidate that the
      interrupted update had moved it to. */
  ghost predicate OneSetRuns(base: World, crashed: World, now: World, ch: ChallengeId, i: InstanceId) {
    && i in base.db.instances && i in now.db.instances
    && var was, rt := base.db.instances[i], now.db.instances[i].runtime;
       && now.db.instances[i] == was.(runtime := rt) && rt.containers <= now.running
       && (rt == was.runtime || Candidate(crashed.containers, ch, was.build, RecordImages(crashed.db, ch), was.runtime, rt, base.nextId))
  }

  /** An update changes how many containers an instance of build `b` has. */
  ghost predicate CountChanges(base: Db, crashed: Db, ch: ChallengeId, b: BuildId) {
    ImagesOfBuild(base, b) != RuntimeImages(RecordImages(crashed, ch))
  }

  /**
   A crash anywhere in an update of `ch`, followed by recovery that reports no error, as seen by an
   instance that was whole before the update: it runs all of its old containers or all of its
   new ones.  Only where the number of its containers changes can it have been removed; the
   crash then came between its row and that of its build.
   */
  lemma CrashedCutoverRecovers(base: World, crashed: World, now: World, ch: ChallengeId, i: InstanceId)
    requires Sound(base) && Safe(base, crashed, ch) && CameThrough(crashed, now)
    requires i in base.db.instances && !Broken(base, i) && Belongs(base.db, i, ch)
    ensures i in crashed.db.instances
    ensures !Broken(crashed, i) ==> OneSetRuns(base, crashed, now, ch, i)
    ensures Broken(crashed, i) ==> CountChanges(base.db, crashed.db, ch, base.db.instances[i].build)
  {
    hide Sound, RuntimeImages, OtherTags, OtherArtifacts, OthersRun, Marked, Tracked, ImagesOf, Runs, TagsOfGeneration;
    SoundIdsOf(base);
    assert OldOrCandidate(base, crashed, ch, i, RecordImages(crashed.db, ch));
    assert OldOrRecorded(base.db, crashed.db, base.db.instances[i].build, RecordImages(crashed.db, ch));
    assert crashed.db.instances[i] == base.db.instances[i].(runtime := crashed.db.instances[i].runtime);
    NothingMissing(base, crashed, ch, i);
    if !Broken(crashed, i) { assert Survivor(crashed, now, i); }
  }

  /** No crash takes a container from an instance. */
  lemma NothingMissing(base: World, crashed: World, ch: ChallengeId, i: InstanceId)
    requires Sound(base) && Safe(base, crashed, ch) && i in base.db.instances && !Missing(base, i)
    ensures !Missing(crashed, i)
  {
    hide Sound, OtherTags, OtherArtifacts, OthersRun, Marked, Tracked, Whole;
    SoundIdsOf(base);
    assert OldOrNew(base.db.instances[i].runtime, crashed.db.instances[i].runtime, base.nextId);
  }

  /** Instances of other challenges come through as they were. */
  lemma OthersComeThrough(base: World, crashed: World, now: World, ch: ChallengeId, i: InstanceId)
    requires Sound(base) && Safe(base, crashed, ch) && CameThrough(crashed, now)
    requires i in base.db.instances && !Broken(base, i) && !Belongs(base.db, i, ch)
    ensures i in now.db.instances && now.db.instances[i] == base.db.instances[i]
    ensures base.db.instances[i].runtime.containers <= now.running
  {
    hide Sound, RuntimeImages, OtherTags, OtherArtifacts, OthersRun, Marked, Tracked, Whole;
    SoundForeign(base);
    NothingMissing(base, crashed, ch, i);
    assert crashed.db.instances[i] == base.db.instances[i];
    assert crashed.db.builds[base.db.instances[i].build] == base.db.builds[base.db.instances[i].build];
    assert Survivor(crashed, now, i);
  }

  lemma SoundForeign(base: World)
    requires Sound(base)
    ensures ForeignKeys(base.db)
  {
  }

  /** The set that was not kept is gone: whatever was on record at the crash and still exists
      belongs to an instance that runs it. */
  lemma OtherSetIsGone(crashed: World, now: World, c: ContainerId)
    requires CameThrough(crashed, now)
    requires c in now.containers && c in crashed.containers && Tracked(crashed.db, c)
    ensures Owned(now.db, c) && c in now.running
  {
    hide Sound, RuntimeImages, Tracked, Broken;
    var i :| Survivor(crashed, now, i) && c in crashed.db.instances[i].runtime.containers;
    assert c in now.db.instances[i].runtime.containers;
  }

  /** And on record is all that existed before the update and was on record then, and all that
      the update has created but for one container. */
  lemma OnRecordAtTheCrash(base: World, crashed: World, ch: ChallengeId, c: ContainerId)
    requires Safe(base, crashed, ch) && c in crashed.containers
    requires if c in base.containers then Tracked(base.db, c) else c + 1 != crashed.nextId
    ensures Tracked(crashed.db, c)
  {
    hide Sound, Whole, WithinTables, OtherTags, OtherArtifacts, OthersRun, Tracked;
  }

  const REAPING_ROWS := map[0 := Instance(0, 0, Runtime(map["p" := 1], {0}))]
  const REAPING_IMAGES := [HostImage("h", {"p"})]
  const REAPING_CONTAINERS := map[0 := Container(NO_IMAGE.(source := "f"), {"p"}, map["p" := 1]), 1 := Container(NO_IMAGE.(id := 1, source := "g"), {"p"}, map["p" := 1])]

  /** A sound world in which a retired container still holds the port of a stopped one. */
  const BEFORE_REAPING := World(
    Db(map["c" := Challenge("", "", false, "", "", "", [], map[], "")], map[],
       map[0 := Build("s", "f", "c", 0, 1, 0, BuildOutput("flag", map[], [], REAPING_IMAGES, false, "g"))],
       REAPING_ROWS, {1}, {}),
    REAPING_CONTAINERS, {1}, map[], map[], map[], 2)

  lemma ReapingRows()
    ensures UniquePorts(REAPING_ROWS) && PortsInRange(REAPING_ROWS) && UniqueContainers(REAPING_ROWS)
    ensures FitsRuntime(REAPING_CONTAINERS, REAPING_ROWS[0].runtime)
  {
  }

  lemma ReapingTables()
    ensures Constraints(BEFORE_REAPING.db) && BuildsDistinct(BEFORE_REAPING.db) && OwnedOrRetired(BEFORE_REAPING.db)
  {
    hide UniquePorts, PortsInRange, UniqueContainers;
    ReapingRows();
  }

  lemma ReapingIsSound()
    ensures Sound(BEFORE_REAPING)
  {
    hide Constraints, BuildsDistinct, OwnedOrRetired, FitsRuntime;
    ReapingRows();
    ReapingTables();
  }

  /** Why recovery removes retired containers before it starts tracked ones. */
  lemma RetiredMustGoFirst()
    ensures Sound(BEFORE_REAPING) && IsTracked(BEFORE_REAPING.db, (0, 0)) && 1 in BEFORE_REAPING.db.retired
    ensures 0 in BEFORE_REAPING.containers && !PortsFree(BEFORE_REAPING, 0)
    ensures PortsFree(WithoutContainers(BEFORE_REAPING, {1}), 0)
  {
    hide Sound;
    ReapingIsSound();
    assert BEFORE_REAPING.containers[1].binds["p"] == 1 && 1 in BEFORE_REAPING.running;
  }
}
