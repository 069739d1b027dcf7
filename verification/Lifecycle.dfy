/** Creating and stopping instances (api.go, docker.go, database_instances.go). */
module Lifecycle {
  import opened Store
  import opened Instances
  import opened Placement
  import opened Containers
  import opened Safety
  import opened Generations

  // --------------------------------------------------------------- stopping

  /** Containers among `ids` were removed, and only removed ones lost their rows; the ports of
      instance `i` were released only once it owned nothing. */
  ghost predicate Unwound(s: World, d: World, i: InstanceId, ids: set<ContainerId>) {
    && Gone(s, d) <= ids
    && d.db.retired <= s.db.retired && s.db.retired - d.db.retired <= ids
    && (s.db.retired - d.db.retired) !! d.containers.Keys
    && d == WithoutContainers(s, Gone(s, d)).(db := s.db.(retired := d.db.retired, instances := d.db.instances))
    && RowUnwound(s, d, i, ids)
  }

  ghost predicate RowUnwound(s: World, d: World, i: InstanceId, ids: set<ContainerId>) {
    && d.db.instances.Keys == s.db.instances.Keys
    && (forall j | j in s.db.instances && j != i :: d.db.instances[j] == s.db.instances[j])
    && (i in s.db.instances ==>
          var was, now := s.db.instances[i].runtime, d.db.instances[i].runtime;
          && d.db.instances[i] == s.db.instances[i].(runtime := now)
          && now.containers <= was.containers && was.containers - now.containers <= ids
          && (was.containers - now.containers) !! d.containers.Keys
          && (now.ports == was.ports || now == NOTHING))
  }

  lemma UnwoundRefl(s: World, i: InstanceId, ids: set<ContainerId>)
    ensures Unwound(s, s, i, ids)
  {
    assert WithoutContainers(s, Gone(s, s)).containers == s.containers;
    assert WithoutContainers(s, Gone(s, s)).running == s.running;
  }

  lemma UnwoundTrans(s: World, mid: World, d: World, i: InstanceId, ids: set<ContainerId>)
    requires Unwound(s, mid, i, ids) && Unwound(mid, d, i, ids)
    ensures Unwound(s, d, i, ids)
  {
    assert Gone(s, d) == Gone(s, mid) + Gone(mid, d);
    assert d.containers == s.containers - Gone(s, d);
    assert d.running == s.running - Gone(s, d);
    assert s.db.retired - d.db.retired == (s.db.retired - mid.db.retired) + (mid.db.retired - d.db.retired);
    RowUnwoundTrans(s, mid, d, i, ids);
  }

  lemma RowUnwoundTrans(s: World, mid: World, d: World, i: InstanceId, ids: set<ContainerId>)
    requires RowUnwound(s, mid, i, ids) && RowUnwound(mid, d, i, ids) && d.containers.Keys <= mid.containers.Keys
    ensures RowUnwound(s, d, i, ids)
  {
    if i in s.db.instances {
      var a, b, c := s.db.instances[i].runtime.containers, mid.db.instances[i].runtime.containers, d.db.instances[i].runtime.containers;
      assert a - c == (a - b) + (b - c);
    }
  }

  lemma SoundUnwound(s: World, d: World, i: InstanceId, ids: set<ContainerId>)
    requires Sound(s) && Unwound(s, d, i, ids)
    ensures Sound(d)
  {
    hide Constraints, BuildsDistinct, FitsRuntime;
    UnwoundConstraints(s, d, i, ids);
    BuildsOnlyDistinct(s.db, d.db);
    assert d.db == s.db.(retired := d.db.retired, instances := d.db.instances);
    forall j | j in d.db.instances
      ensures FitsRuntime(d.containers, d.db.instances[j].runtime)
    {
      FitsReduced(s.containers, d.containers, s.db.instances[j].runtime, d.db.instances[j].runtime);
    }
    forall c | c in d.running
      ensures Tracked(d.db, c)
    {
      assert c in d.containers && c in s.running;
      if c !in d.db.retired {
        var j :| j in s.db.instances && c in s.db.instances[j].runtime.containers;
        assert c in d.db.instances[j].runtime.containers;
      }
    }
  }

  lemma FitsReduced(containers: map<ContainerId, Container>, fewer: map<ContainerId, Container>, was: Runtime, now: Runtime)
    requires FitsRuntime(containers, was)
    requires forall c | c in fewer :: c in containers && fewer[c] == containers[c]
    requires now.containers <= was.containers && (now.ports == was.ports || now == NOTHING)
    ensures FitsRuntime(fewer, now)
  {
    assert forall c | c in now.containers :: c in was.containers && now.ports == was.ports;
  }

  /** Rows only lost containers and ports. */
  ghost predicate Shrunk(was: map<InstanceId, Instance>, now: map<InstanceId, Instance>) {
    forall j | j in now ::
      && j in was && now[j].build == was[j].build
      && (now[j].runtime.ports == was[j].runtime.ports || now[j].runtime.ports == map[])
      && now[j].runtime.containers <= was[j].runtime.containers
  }

  lemma ShrunkPorts(was: map<InstanceId, Instance>, now: map<InstanceId, Instance>)
    requires Shrunk(was, now)
    ensures UniquePorts(was) ==> UniquePorts(now)
    ensures PortsInRange(was) ==> PortsInRange(now)
  {
  }

  lemma ShrunkContainers(was: map<InstanceId, Instance>, now: map<InstanceId, Instance>)
    requires Shrunk(was, now)
    ensures UniqueContainers(was) ==> UniqueContainers(now)
  {
  }

  lemma ShrunkConstraints(s: Db, d: Db)
    requires Shrunk(s.instances, d.instances) && d.builds == s.builds && d.challenges == s.challenges && d.retired <= s.retired
    ensures Constraints(s) ==> Constraints(d)
    ensures OwnedOrRetired(s) ==> OwnedOrRetired(d)
  {
    hide UniquePorts, PortsInRange, UniqueContainers, UniqueBuilds, Recordable;
    ShrunkPorts(s.instances, d.instances);
    ShrunkContainers(s.instances, d.instances);
  }

  lemma UnwoundConstraints(s: World, d: World, i: InstanceId, ids: set<ContainerId>)
    requires Unwound(s, d, i, ids)
    ensures Constraints(s.db) ==> Constraints(d.db)
    ensures OwnedOrRetired(s.db) ==> OwnedOrRetired(d.db)
  {
    hide Constraints, Gone;
    ShrunkConstraints(s.db, d.db);
  }

  function WithoutRow(db: Db, i: InstanceId, c: ContainerId): Db {
    if i in db.instances then
      var row := db.instances[i];
      db.(instances := db.instances[i := row.(runtime := row.runtime.(containers := row.runtime.containers - {c}))])
    else db
  }

  function WithoutPorts(db: Db, i: InstanceId): Db {
    if i in db.instances then
      db.(instances := db.instances[i := db.instances[i].(runtime := db.instances[i].runtime.(ports := map[]))])
    else db
  }

  lemma UnwoundRemoved(s: World, d: World, i: InstanceId, c: ContainerId)
    requires d == s || (c in s.containers && d == WithoutContainers(s, {c}))
    ensures Unwound(s, d, i, {c})
  {
    if d == s {
      UnwoundRefl(s, i, {c});
    } else {
      assert Gone(s, d) == {c};
    }
  }

  lemma UnwoundRow(s: World, i: InstanceId, c: ContainerId)
    requires c !in s.containers
    ensures Unwound(s, s.(db := WithoutRow(s.db, i, c)), i, {c})
    ensures Unwound(s, s.(db := s.db.(retired := s.db.retired - {c})), i, {c})
  {
    UnwoundRefl(s, i, {c});
    if i in s.db.instances {
      assert s.db.instances[i := s.db.instances[i]] == s.db.instances;
    }
  }

  lemma UnwoundPorts(s: World, i: InstanceId)
    requires i in s.db.instances ==> s.db.instances[i].runtime.containers == {}
    ensures Unwound(s, s.(db := WithoutPorts(s.db, i)), i, {})
  {
    UnwoundRefl(s, i, {});
  }

  lemma UnwoundMore(s: World, mid: World, d: World, i: InstanceId, ids: set<ContainerId>, more: set<ContainerId>)
    requires Unwound(s, mid, i, ids) && Unwound(mid, d, i, more) && more <= ids
    ensures Unwound(s, d, i, ids)
  {
    assert Unwound(mid, d, i, ids);
    UnwoundTrans(s, mid, d, i, ids);
  }

  /** `i` owns none of `ids`, and they are gone and forgotten. */
  ghost predicate Cleared(w: World, i: InstanceId, ids: set<ContainerId>) {
    && ids !! w.containers.Keys && ids !! w.db.retired
    && (i in w.db.instances ==> ids !! w.db.instances[i].runtime.containers)
  }

  lemma ClearedStays(s: World, d: World, i: InstanceId, ids: set<ContainerId>, more: set<ContainerId>)
    requires Cleared(s, i, ids) && Unwound(s, d, i, more)
    ensures Cleared(d, i, ids)
  {
  }

  lemma OneCleared(s: World, w1: World, w2: World, w3: World, i: InstanceId, c: ContainerId)
    requires c !in w1.containers && w2 == w1.(db := WithoutRow(w1.db, i, c)) && w3 == w2.(db := w2.db.(retired := w2.db.retired - {c}))
    ensures Cleared(w3, i, {c})
  {
  }

  lemma ClearedJoin(w: World, i: InstanceId, a: set<ContainerId>, b: set<ContainerId>)
    requires Cleared(w, i, a) && Cleared(w, i, b)
    ensures Cleared(w, i, a + b)
  {
  }

  /** Removes one container of an instance, then its row, then its retired record. */
  method StopContainer(m: Manager, i: InstanceId, c: ContainerId) returns (ok: bool)
    modifies m
    ensures Unwound(old(m.world), m.world, i, {c})
    ensures ok ==> Cleared(m.world, i, {c})
    ensures m.reliable && Constraints(old(m.world.db)) ==> ok
    ensures old(m.crashPoints) <= m.crashPoints
    ensures forall d | d in m.crashPoints :: d in old(m.crashPoints) || Unwound(old(m.world), d, i, {c})
  {
    hide *;
    ghost var s := m.world;
    var r := m.ContainerRemove(c);
    ghost var w1 := m.world;
    UnwoundRemoved(s, w1, i, c);
    UnwoundConstraints(s, w1, i, {c});
    if r != Done && r != NotFound {
      return false;
    }
    RemovedIsGone(s, w1, c);
    UnwoundRow(w1, i, c);
    UnwoundConstraints(w1, w1.(db := WithoutRow(w1.db, i, c)), i, {c});
    ok := m.Commit(WithoutRow(m.world.db, i, c));
    ghost var w2 := m.world;
    UnwoundRefl(w1, i, {c});
    UnwoundTrans(s, w1, w2, i, {c});
    if !ok {
      return;
    }
    UnwoundRow(w2, i, c);
    UnwoundConstraints(w2, w2.(db := w2.db.(retired := w2.db.retired - {c})), i, {c});
    ok := m.Commit(m.world.db.(retired := m.world.db.retired - {c}));
    ghost var w3 := m.world;
    UnwoundRefl(w2, i, {c});
    UnwoundTrans(s, w2, w3, i, {c});
    if ok { OneCleared(s, w1, w2, w3, i, c); }
  }

  lemma RemovedIsGone(s: World, w: World, c: ContainerId)
    requires (c !in s.containers && w == s) || w == WithoutContainers(s, {c})
    ensures c !in w.containers
  {
  }

  /** Removes containers for good, with their rows; `remaining` are those that are not gone. */
  method StopContainers(m: Manager, i: InstanceId, ids: set<ContainerId>) returns (ok: bool, remaining: set<ContainerId>)
    requires i in m.world.db.instances ==> m.world.db.instances[i].runtime.containers <= ids
    modifies m
    ensures Unwound(old(m.world), m.world, i, ids) && remaining <= ids
    ensures Cleared(m.world, i, ids - remaining)
    ensures ok ==> remaining == {} && (i in m.world.db.instances ==> m.world.db.instances[i].runtime == NOTHING)
    ensures m.reliable && Constraints(old(m.world.db)) ==> ok
    ensures old(m.crashPoints) <= m.crashPoints
    ensures forall d | d in m.crashPoints :: d in old(m.crashPoints) || Unwound(old(m.world), d, i, ids)
  {
    hide *;
    ghost var s := m.world;
    UnwoundRefl(s, i, ids);
    ok, remaining := true, {};
    var todo := ids;
    ghost var gone: set<ContainerId> := {};
    NoneCleared(s, i);
    while todo != {}
      invariant todo + gone + remaining == ids && todo !! gone !! remaining
      invariant Unwound(s, m.world, i, ids)
      invariant Cleared(m.world, i, gone)
      invariant ok <==> remaining == {}
      invariant m.reliable && Constraints(s.db) ==> ok
      invariant old(m.crashPoints) <= m.crashPoints
      invariant forall d | d in m.crashPoints :: d in old(m.crashPoints) || Unwound(s, d, i, ids)
    {
      var c :| c in todo;
      ghost var mid := m.world;
      UnwoundConstraints(s, mid, i, ids);
      UnwoundStep(s, mid, i, ids, c);
      var stopped := StopContainer(m, i, c);
      ClearedStays(mid, m.world, i, gone, {c});
      if !stopped {
        ok, remaining := false, remaining + {c};
      } else {
        ClearedJoin(m.world, i, gone, {c});
        gone := gone + {c};
      }
      todo := todo - {c};
    }
    assert gone == ids - remaining;
    if remaining == {} {
      ghost var mid := m.world;
      OwnsNothing(s, mid, i, ids);
      UnwoundPorts(mid, i);
      UnwoundConstraints(s, mid, i, ids);
      UnwoundConstraints(mid, mid.(db := WithoutPorts(mid.db, i)), i, {});
      var released := m.Commit(WithoutPorts(m.world.db, i));
      UnwoundRefl(mid, i, {});
      UnwoundMore(s, mid, m.world, i, ids, {});
      assert ids - remaining == ids;
      ClearedStays(mid, m.world, i, ids, {});
      if released { PortsReleased(mid, i); }
      ok := released;
    }
  }

  lemma NoneCleared(w: World, i: InstanceId)
    ensures Cleared(w, i, {})
  {
  }

  lemma UnwoundStep(s: World, mid: World, i: InstanceId, ids: set<ContainerId>, c: ContainerId)
    requires Unwound(s, mid, i, ids) && c in ids
    ensures forall d :: Unwound(mid, d, i, {c}) ==> Unwound(s, d, i, ids)
  {
    hide Unwound;
    forall d | Unwound(mid, d, i, {c}) ensures Unwound(s, d, i, ids) { UnwoundMore(s, mid, d, i, ids, {c}); }
  }

  lemma OwnsNothing(s: World, mid: World, i: InstanceId, ids: set<ContainerId>)
    requires i in s.db.instances ==> s.db.instances[i].runtime.containers <= ids
    requires Unwound(s, mid, i, ids) && Cleared(mid, i, ids)
    ensures i in mid.db.instances ==> mid.db.instances[i].runtime.containers == {}
  {
  }

  lemma PortsReleased(mid: World, i: InstanceId)
    requires i in mid.db.instances ==> mid.db.instances[i].runtime.containers == {}
    ensures var d := WithoutPorts(mid.db, i); i in d.instances ==> d.instances[i].runtime == NOTHING
  {
  }

  /** Instance `i` is gone with all it had; nothing else is touched. */
  ghost predicate InstanceGone(s: World, d: World, i: InstanceId) {
    && i in s.db.instances
    && d.db.instances == s.db.instances - {i}
    && Gone(s, d) <= s.db.instances[i].runtime.containers
    && s.db.instances[i].runtime.containers !! d.containers.Keys
    && s.db.instances[i].runtime.containers !! d.db.retired
    && d.db.retired == s.db.retired - s.db.instances[i].runtime.containers
    && d == WithoutContainers(s, Gone(s, d)).(db := s.db.(retired := d.db.retired, instances := d.db.instances))
  }

  lemma UnwoundThenGone(s: World, mid: World, i: InstanceId)
    requires i in s.db.instances && Unwound(s, mid, i, s.db.instances[i].runtime.containers)
    requires Cleared(mid, i, s.db.instances[i].runtime.containers)
    ensures InstanceGone(s, mid.(db := mid.db.(instances := mid.db.instances - {i})), i)
  {
    var d := mid.(db := mid.db.(instances := mid.db.instances - {i}));
    assert Gone(s, d) == Gone(s, mid);
    assert d.db.instances == s.db.instances - {i};
    assert d.db.retired == s.db.retired - s.db.instances[i].runtime.containers;
  }

  lemma GoneConstraints(db: Db, i: InstanceId, retired: set<ContainerId>)
    requires retired <= db.retired
    ensures Constraints(db) ==> Constraints(db.(instances := db.instances - {i}, retired := retired))
    ensures OwnedOrRetired(db) ==> OwnedOrRetired(db.(instances := db.instances - {i}, retired := retired))
  {
    hide Constraints;
    ShrunkConstraints(db, db.(instances := db.instances - {i}, retired := retired));
  }

  lemma SoundGone(s: World, d: World, i: InstanceId)
    requires Sound(s) && InstanceGone(s, d, i)
    ensures Sound(d)
  {
    hide Constraints, BuildsDistinct;
    BuildsOnlyDistinct(s.db, d.db);
    GoneConstraints(s.db, i, d.db.retired);
    assert d.db == s.db.(instances := s.db.instances - {i}, retired := d.db.retired);
    forall j | j in d.db.instances
      ensures FitsRuntime(d.containers, d.db.instances[j].runtime)
    {
      FitsFewer(s.containers, d.containers, s.db.instances[j].runtime);
    }
    forall c | c in d.running
      ensures Tracked(d.db, c)
    {
      assert c in d.containers && c in s.running;
      if c !in d.db.retired {
        var j :| j in s.db.instances && c in s.db.instances[j].runtime.containers;
        assert j != i && c in d.db.instances[j].runtime.containers;
      }
    }
  }

  /** Stops an instance for good. */
  method StopInstance(m: Manager, i: InstanceId) returns (ok: bool)
    requires i in m.world.db.instances
    modifies m
    ensures ok ==> InstanceGone(old(m.world), m.world, i)
    ensures !ok ==> Unwound(old(m.world), m.world, i, old(m.world.db.instances[i].runtime.containers))
    ensures m.reliable && Constraints(old(m.world.db)) ==> ok
    ensures old(m.crashPoints) <= m.crashPoints
    ensures forall d | d in m.crashPoints ::
      d in old(m.crashPoints) || Unwound(old(m.world), d, i, old(m.world.db.instances[i].runtime.containers)) || (ok && d == m.world)
  {
    hide *;
    ghost var s := m.world;
    var ids := m.world.db.instances[i].runtime.containers;
    var remaining;
    ok, remaining := StopContainers(m, i, ids);
    ghost var mid := m.world;
    assert ok ==> ids - remaining == ids;
    if !ok {
      return;
    }
    ok := m.NetworkRemove(i);
    if !ok {
      return;
    }
    UnwoundThenGone(s, mid, i);
    UnwoundConstraints(s, mid, i, ids);
    GoneConstraints(mid.db, i, mid.db.retired);
    ok := m.Commit(m.world.db.(instances := m.world.db.instances - {i}));
  }

  lemma UnwoundConsistent(s: World, d: World, i: InstanceId, ids: set<ContainerId>)
    requires Unwound(s, d, i, ids) && Consistent(s)
    ensures Consistent(d)
  {
    hide Consistent;
    LessIsConsistent(s, d);
  }

  lemma GoneConsistent(s: World, d: World, i: InstanceId)
    requires InstanceGone(s, d, i) && Consistent(s)
    ensures Consistent(d)
  {
    hide Consistent;
    LessIsConsistent(s, d);
  }

  // --------------------------------------------------------------- starting

  /** Everything `s` had is still there and running; new rows may have come, of instances that
      run their builds. */
  ghost predicate Preserves(s: World, d: World) {
    && Keeps(s.db.instances, d.db.instances)
    && (forall i | i in d.db.instances && i !in s.db.instances :: RunsNew(s, d, i))
    && Keeps(s.containers, d.containers)
    && s.running <= d.running && s.db.retired <= d.db.retired && s.nextId <= d.nextId
    && (forall c | c in d.containers && c !in s.containers :: c >= s.nextId)
    && (forall c | c in s.containers || c !in d.containers :: SameEntry(s.picked, d.picked, c))
    && d == s.(db := s.db.(instances := d.db.instances, retired := d.db.retired, retiredNetworks := d.db.retiredNetworks),
               containers := d.containers, running := d.running, picked := d.picked, nextId := d.nextId)
  }

  lemma PreservesTrans(s: World, mid: World, d: World)
    requires Preserves(s, mid) && Preserves(mid, d)
    ensures Preserves(s, d)
  {
    hide FromBuild;
    forall i | i in d.db.instances && i !in s.db.instances
      ensures RunsNew(s, d, i)
    {
      FromBuildOn(s, mid, d, d.db.instances[i].build);
    }
  }

  lemma FromBuildOn(s: World, mid: World, d: World, b: BuildId)
    requires mid.db.builds == s.db.builds && mid.tags == s.tags && Keeps(mid.containers, d.containers)
    ensures forall c :: FromBuild(s, mid, b, c) ==> FromBuild(s, d, b, c)
    ensures forall c :: FromBuild(mid, d, b, c) ==> FromBuild(s, d, b, c)
  {
  }

  /** So no build loses its generation. */
  lemma PreservesConsistent(s: World, d: World)
    requires IdsIssued(s) && Preserves(s, d) && Consistent(s)
    ensures Consistent(d)
  {
    hide Consistent, RunsNew, FromBuild;
    forall b | b in d.db.builds
      ensures KeepsBuild(s, d, b)
    {
      forall i | i in d.db.instances && d.db.instances[i].build == b
        ensures RunsOld(s, d, i) || RunsNew(s, d, i)
      {
        if i in s.db.instances { RunsWhatItRan(s, d, i); }
      }
    }
    KeptConsistent(s, d);
  }

  lemma RunsWhatItRan(s: World, d: World, i: InstanceId)
    requires Preserves(s, d) && i in s.db.instances
    ensures i in d.db.instances && (IdsIssued(s) ==> RunsOld(s, d, i))
  {
    hide RunsNew;
  }

  /** A new instance of `b` runs `rt`, and nothing else changed. */
  ghost predicate Spawned(s: World, d: World, i: InstanceId, b: BuildId, rt: Runtime) {
    && i !in s.db.instances && b in s.db.builds
    && d.db == s.db.(instances := s.db.instances[i := Instance(b, 0, rt)])
    && |rt.containers| == RuntimeImages(s.db.builds[b].output.images)
    && Runs(s.tags, d.containers, s.db.builds[b].challenge, b, s.db.builds[b].output.images, map[], rt)
    && (forall c | c in rt.containers :: s.nextId <= c < d.nextId)
    && rt.containers <= d.containers.Keys
    && rt.containers <= d.running <= s.running + rt.containers
    && d.containers.Keys == s.containers.Keys + rt.containers
    && (forall c | c in rt.containers :: AsRecorded(d, rt, c))
    && Preserves(s, d)
  }

  /** Beyond `s` there is at most an instance row without containers, a network record, and
      containers among `ids` that are recorded as retired or, for the latest, could not be. */
  ghost predicate Failing(s: World, d: World, i: InstanceId, b: BuildId, ids: set<ContainerId>) {
    && i !in s.db.instances && b in s.db.builds
    && (d.db.instances == s.db.instances || d.db.instances == s.db.instances[i := Instance(b, 0, NOTHING)])
    && GrownBy(s, d.(db := d.db.(instances := s.db.instances, retiredNetworks := s.db.retiredNetworks)), ids)
  }

  function Opened(db: Db, i: InstanceId, b: BuildId): Db {
    db.(instances := db.instances[i := Instance(b, 0, NOTHING)])
  }

  lemma OpenedPorts(instances: map<InstanceId, Instance>, i: InstanceId, b: BuildId)
    requires i !in instances
    ensures UniquePorts(instances) ==> UniquePorts(instances[i := Instance(b, 0, NOTHING)])
    ensures PortsInRange(instances) ==> PortsInRange(instances[i := Instance(b, 0, NOTHING)])
    ensures UniqueContainers(instances) ==> UniqueContainers(instances[i := Instance(b, 0, NOTHING)])
  {
  }

  lemma OpenedConstraints(db: Db, i: InstanceId, b: BuildId)
    requires Constraints(db) && i !in db.instances && b in db.builds
    ensures Constraints(Opened(db, i, b))
  {
    hide UniquePorts, PortsInRange, UniqueContainers, UniqueBuilds, Recordable;
    OpenedPorts(db.instances, i, b);
  }

  lemma OpenedIsSound(s: World, i: InstanceId, b: BuildId)
    requires Sound(s) && i !in s.db.instances && b in s.db.builds
    ensures Sound(s.(db := Opened(s.db, i, b)))
  {
    hide Constraints, FitsRuntime;
    OpenedConstraints(s.db, i, b);
    NothingFits(s.containers);
    var d := s.(db := Opened(s.db, i, b));
    forall c | c in d.running
      ensures Tracked(d.db, c)
    {
      if c !in s.db.retired {
        var j :| j in s.db.instances && c in s.db.instances[j].runtime.containers;
        assert c in d.db.instances[j].runtime.containers;
      }
    }
  }

  lemma NothingFits(containers: map<ContainerId, Container>)
    ensures FitsRuntime(containers, NOTHING)
  {
  }

  lemma OpenedFails(s: World, i: InstanceId, b: BuildId)
    requires IdsIssued(s) && i !in s.db.instances && b in s.db.builds
    ensures Failing(s, s.(db := Opened(s.db, i, b)), i, b, {})
    ensures Failing(s, s, i, b, {})
  {
    GrowNone(s);
  }

  lemma GrownFails(s: World, o: World, i: InstanceId, b: BuildId, ids: set<ContainerId>)
    requires o == s.(db := Opened(s.db, i, b)) && i !in s.db.instances && b in s.db.builds
    ensures forall d :: GrownBy(o, d, ids) ==> Failing(s, d, i, b, ids) && d.db.retiredNetworks == s.db.retiredNetworks
  {
  }

  lemma FailingUnwound(s: World, w: World, i: InstanceId, b: BuildId, ids: set<ContainerId>)
    requires IdsIssued(s) && Failing(s, w, i, b, ids)
    ensures forall d :: Unwound(w, d, i, ids) ==> Failing(s, d, i, b, ids)
  {
    forall d | Unwound(w, d, i, ids)
      ensures Failing(s, d, i, b, ids)
    {
      hide GrownBy;
      if i in w.db.instances { assert d.db.instances[i] == w.db.instances[i]; }
      assert d.db.instances == w.db.instances;
      var w' := w.(db := w.db.(instances := s.db.instances, retiredNetworks := s.db.retiredNetworks));
      var d' := d.(db := d.db.(instances := s.db.instances, retiredNetworks := s.db.retiredNetworks));
      assert Reaped(w', d', ids);
      ReapedKeeps(s, w', d', ids);
    }
  }

  lemma FailingRecords(s: World, w: World, i: InstanceId, b: BuildId, ids: set<ContainerId>)
    requires IdsIssued(s) && Failing(s, w, i, b, ids)
    ensures forall c | c in ids :: Failing(s, w.(db := w.db.(retired := w.db.retired + {c})), i, b, ids)
    ensures Failing(s, w.(db := w.db.(retiredNetworks := w.db.retiredNetworks + {i})), i, b, ids)
    ensures Failing(s, w.(db := w.db.(instances := w.db.instances - {i})), i, b, ids)
  {
    assert s.db.instances[i := Instance(b, 0, NOTHING)] - {i} == s.db.instances;
    assert s.db.instances - {i} == s.db.instances;
  }

  /** What a failed start leaves behind is sound, and took nothing away. */
  lemma FailingIsSound(s: World, d: World, i: InstanceId, b: BuildId, ids: set<ContainerId>)
    requires Sound(s) && Failing(s, d, i, b, ids)
    ensures Sound(d) && Preserves(s, d)
  {
    hide Sound, Grown, Preserves;
    FailingPreserves(s, d, i, b, ids);
    var d' := d.(db := d.db.(instances := s.db.instances, retiredNetworks := s.db.retiredNetworks));
    SoundGrown(s, d');
    FailingTables(s, d, i, b, ids);
    OpenedIsSound(d', i, b);
    var o := if i in d.db.instances then d'.(db := Opened(d'.db, i, b)) else d';
    assert d == o.(db := o.db.(retiredNetworks := d.db.retiredNetworks));
    NetworksIgnored(o, d.db.retiredNetworks);
  }

  lemma FailingTables(s: World, d: World, i: InstanceId, b: BuildId, ids: set<ContainerId>)
    requires Failing(s, d, i, b, ids)
    ensures d.db.builds == s.db.builds && d.db.challenges == s.db.challenges && d.db.schemas == s.db.schemas
  {
  }

  lemma FailingPreserves(s: World, d: World, i: InstanceId, b: BuildId, ids: set<ContainerId>)
    requires Failing(s, d, i, b, ids)
    ensures Preserves(s, d)
  {
  }

  lemma NetworksIgnored(s: World, networks: set<InstanceId>)
    requires Sound(s)
    ensures Sound(s.(db := s.db.(retiredNetworks := networks)))
  {
    hide FitsRuntime, UniqueBuilds;
    var d := s.(db := s.db.(retiredNetworks := networks));
    forall c | Tracked(s.db, c) ensures Tracked(d.db, c) {
      if Owned(s.db, c) { assert Owned(d.db, c); }
    }
  }

  /** With its containers gone and its row removed, a failed start has left nothing. */
  lemma FailingCleared(s: World, w: World, i: InstanceId, b: BuildId, ids: set<ContainerId>)
    requires IdsIssued(s) && Failing(s, w, i, b, ids) && Cleared(w, i, ids)
    requires w.db.instances == s.db.instances && w.db.retiredNetworks == s.db.retiredNetworks
    ensures w == s.(nextId := w.nextId)
  {
    assert w.containers == s.containers;
    assert w.db.retired == s.db.retired;
    assert w.running == s.running;
    SamePicked(s.picked, w.picked);
  }

  lemma SamePicked(a: map<ContainerId, map<string, nat>>, b: map<ContainerId, map<string, nat>>)
    requires forall c :: SameEntry(a, b, c)
    ensures a == b
  {
    forall c | c in a ensures c in b && b[c] == a[c] { assert SameEntry(a, b, c); }
    forall c | c in b ensures c in a { assert SameEntry(a, b, c); }
    assert a.Keys == b.Keys;
  }

  lemma FailingRow(s: World, w: World, i: InstanceId, b: BuildId, ids: set<ContainerId>)
    requires Failing(s, w, i, b, ids)
    ensures i in w.db.instances ==> w.db.instances[i].runtime.containers <= ids
    ensures w.db.instances - {i} == s.db.instances
  {
    assert s.db.instances[i := Instance(b, 0, NOTHING)] - {i} == s.db.instances;
    assert s.db.instances - {i} == s.db.instances;
  }

  lemma UnwoundNetworks(w: World, d: World, i: InstanceId, ids: set<ContainerId>)
    requires Unwound(w, d, i, ids)
    ensures d.db.retiredNetworks == w.db.retiredNetworks
  {
  }

  lemma ClearedWithoutRow(w: World, i: InstanceId, ids: set<ContainerId>)
    requires Cleared(w, i, ids)
    ensures Cleared(w.(db := w.db.(instances := w.db.instances - {i})), i, ids)
  {
  }

  /** The deferred clean-up of a start that did not complete. */
  method AbandonInstance(m: Manager, i: InstanceId, ids: set<ContainerId>, ghost s: World, ghost b: BuildId) returns (deleted: bool)
    requires Sound(s) && Failing(s, m.world, i, b, ids)
    modifies m
    ensures Failing(s, m.world, i, b, ids)
    ensures m.reliable && m.world.db.retiredNetworks == s.db.retiredNetworks ==> m.world == s.(nextId := m.world.nextId)
    ensures m.reliable ==> m.world.db.retiredNetworks == old(m.world.db.retiredNetworks)
    ensures m.reliable ==> deleted
    ensures deleted ==> m.world.db.instances == s.db.instances
    ensures old(m.crashPoints) <= m.crashPoints
    ensures forall d | d in m.crashPoints :: d in old(m.crashPoints) || Failing(s, d, i, b, ids)
  {
    hide *;
    ghost var w := m.world;
    SoundIdsOf(s);
    FailingIsSound(s, w, i, b, ids);
    SoundConstraints(w);
    FailingRow(s, w, i, b, ids);
    FailingUnwound(s, w, i, b, ids);
    var ok, remaining := StopContainers(m, i, ids);
    UnwoundNetworks(w, m.world, i, ids);
    ghost var stopped := m.world;
    while remaining != {}
      invariant remaining <= ids && Failing(s, m.world, i, b, ids)
      invariant m.reliable ==> remaining == {} && m.world == stopped
      invariant old(m.crashPoints) <= m.crashPoints
      invariant forall d | d in m.crashPoints :: d in old(m.crashPoints) || Failing(s, d, i, b, ids)
    {
      var c :| c in remaining;
      remaining := remaining - {c};
      FailingRecords(s, m.world, i, b, ids);
      var _ := m.Commit(m.world.db.(retired := m.world.db.retired + {c}));
    }
    var removed := m.NetworkRemove(i);
    FailingRecords(s, m.world, i, b, ids);
    if !removed {
      var _ := m.Commit(m.world.db.(retiredNetworks := m.world.db.retiredNetworks + {i}));
    }
    ghost var v := m.world;
    FailingRecords(s, v, i, b, ids);
    FailingIsSound(s, v, i, b, ids);
    SoundConstraints(v);
    GoneConstraints(v.db, i, v.db.retired);
    FailingRow(s, v, i, b, ids);
    deleted := m.Commit(m.world.db.(instances := m.world.db.instances - {i}));
    if m.reliable {
      assert ids - {} == ids;
      ClearedWithoutRow(v, i, ids);
      if m.world.db.retiredNetworks == s.db.retiredNetworks { FailingCleared(s, m.world, i, b, ids); }
    }
  }

  lemma SoundIdsOf(s: World)
    requires Sound(s)
    ensures IdsIssued(s)
  {
  }

  lemma SoundConstraints(s: World)
    requires Sound(s)
    ensures Constraints(s.db)
  {
  }

  lemma SpawnedTables(s: World, o: World, d: World, i: InstanceId, b: BuildId, rt: Runtime)
    requires IdsIssued(s) && i !in s.db.instances && o == s.(db := Opened(s.db, i, b))
    requires d.db == ReplaceRuntime(o.db, i, rt) && forall c | c in rt.containers :: c >= s.nextId
    ensures d.db == s.db.(instances := s.db.instances[i := Instance(b, 0, rt)])
  {
    assert s.db.instances[i := Instance(b, 0, NOTHING)][i := Instance(b, 0, rt)] == s.db.instances[i := Instance(b, 0, rt)];
    assert (s.db.retired - rt.containers) + ({} - rt.containers) == s.db.retired;
  }

  lemma LaunchedOn(o: World, w: World, rt: Runtime)
    requires Launched(o, w, rt)
    ensures forall c | c in rt.containers :: o.nextId <= c < w.nextId
    ensures rt.containers <= w.containers.Keys && rt.containers <= w.running <= o.running + rt.containers
    ensures w.containers.Keys == o.containers.Keys + rt.containers && Keeps(o.containers, w.containers)
    ensures o.running <= w.running && o.nextId <= w.nextId
    ensures forall c | c in o.containers || c !in w.containers :: SameEntry(o.picked, w.picked, c)
    ensures forall c | c in rt.containers :: AsRecorded(w, rt, c)
    ensures w == o.(db := w.db, containers := w.containers, running := w.running, picked := w.picked, nextId := w.nextId)
  {
    hide FitsRuntime, AsRecorded;
  }

  lemma PreservesBySpawn(s: World, w: World, d: World, i: InstanceId, b: BuildId, rt: Runtime)
    requires i !in s.db.instances && Keeps(s.containers, w.containers) && s.running <= w.running && s.nextId <= w.nextId
    requires forall c | c in w.containers && c !in s.containers :: c >= s.nextId
    requires forall c | c in s.containers || c !in w.containers :: SameEntry(s.picked, w.picked, c)
    requires w == s.(db := w.db, containers := w.containers, running := w.running, picked := w.picked, nextId := w.nextId)
    requires d == w.(db := s.db.(instances := s.db.instances[i := Instance(b, 0, rt)]))
    requires forall c | c in rt.containers :: FromBuild(s, d, b, c)
    ensures Preserves(s, d)
  {
    hide FromBuild;
    assert RunsNew(s, d, i);
  }

  lemma SameHeld(w: World, d: World, rt: Runtime)
    requires d.containers == w.containers && d.picked == w.picked
    ensures (forall c | c in rt.containers :: AsRecorded(w, rt, c)) ==> forall c | c in rt.containers :: AsRecorded(d, rt, c)
  {
    assert forall c, n | c in w.containers :: Holds(d, c, n) <==> Holds(w, c, n);
  }

  lemma SpawnedBy(s: World, o: World, d: World, i: InstanceId, b: BuildId, rt: Runtime)
    requires Sound(s) && i !in s.db.instances && b in s.db.builds && o == s.(db := Opened(s.db, i, b))
    requires Deployed(o, d, i, rt) && |rt.containers| == RuntimeImages(s.db.builds[b].output.images)
    requires Runs(s.tags, d.containers, s.db.builds[b].challenge, b, s.db.builds[b].output.images, map[], rt)
    ensures Spawned(s, d, i, b, rt)
  {
    hide RuntimeImages, Launched, Sound, Keeps, Preserves, Opened, ReplaceRuntime, IdsIssued, FromBuild, RunsImages, PublishesNames, KeepsPorts, AsRecorded;
    SoundIdsOf(s);
    var w := d.(db := o.db.(retired := o.db.retired + rt.containers));
    LaunchedOn(o, w, rt);
    SpawnedTables(s, o, d, i, b, rt);
    assert RunsImages(s.tags, d.containers, rt.containers, s.db.builds[b].challenge, b, s.db.builds[b].output.images);
    RunsFromBuild(s, d, b, rt.containers);
    PreservesBySpawn(s, w, d, i, b, rt);
    SameHeld(w, d, rt);
  }

  lemma DeployedIsSound(o: World, d: World, i: InstanceId, rt: Runtime)
    requires Sound(o) && Deployed(o, d, i, rt) && Constraints(d.db)
    ensures Sound(d)
  {
    hide Sound, FitsRuntime, Constraints;
    var w := d.(db := o.db.(retired := o.db.retired + rt.containers));
    DeployedIn(o, d, w, i, rt);
    SoundGrown(o, w);
    SoundReplaced(w, i, rt);
  }

  lemma DeployedIn(o: World, d: World, w: World, i: InstanceId, rt: Runtime)
    requires Sound(o) && Deployed(o, d, i, rt) && w == d.(db := o.db.(retired := o.db.retired + rt.containers))
    ensures i in w.db.instances && Grown(o, w) && FitsRuntime(w.containers, rt)
    ensures d == w.(db := ReplaceRuntime(w.db, i, rt))
    ensures forall c | c in rt.containers :: c < w.nextId
  {
    hide FitsRuntime, Constraints, BuildsDistinct, OwnedOrRetired, Tracked;
    assert w.db.retired - rt.containers == o.db.retired - rt.containers;
  }

  /** The next row id: one more than the largest. */
  method NextInstanceId(ids: set<InstanceId>) returns (i: InstanceId)
    ensures IsNext(ids, i)
  {
    i := 1;
    var rest := ids;
    while rest != {}
      invariant rest <= ids && i > 0
      invariant forall y | y in ids && y !in rest :: y < i
      invariant i == 1 || i - 1 in ids
    {
      var x :| x in rest;
      rest := rest - {x};
      if x >= i {
        i := x + 1;
      }
    }
  }

  /**
   Creates an instance of `b` and starts its containers, or undoes what it did.  At no point
   does anything that existed before change.  `clean` is false when a failed start left its
   row behind.
   */
  method NewInstance(m: Manager, b: BuildId, build: Build) returns (r: Option<InstanceId>, clean: bool, ghost rt: Runtime)
    requires m.portLow == 0 || m.portLow <= m.portHigh
    requires Sound(m.world)
    requires b in m.world.db.builds ==> build.output == m.world.db.builds[b].output && build.challenge == m.world.db.builds[b].challenge
    modifies m
    ensures Sound(m.world) && Preserves(old(m.world), m.world)
    ensures r.Some? ==> Spawned(old(m.world), m.world, r.value, b, rt)
    ensures r.Some? && m.portLow != 0 ==> Pinned(m.world.containers, rt.containers)
    ensures r.None? ==> m.world == old(m.world) || exists i, ids :: Failing(old(m.world), m.world, i, b, ids)
    ensures m.reliable && r.None? ==> clean && m.world == old(m.world).(nextId := m.world.nextId)
    ensures r.None? && clean ==> m.world.db.instances == old(m.world.db.instances)
    ensures m.reliable && m.fortunate && CanLaunch(old(m.world), m.portLow, m.portHigh, b) ==> r.Some?
    ensures old(m.crashPoints) <= m.crashPoints
    ensures forall d | d in m.crashPoints :: d in old(m.crashPoints) || (Sound(d) && Preserves(old(m.world), d))
  {
    hide *;
    ghost var s := m.world;
    rt := NOTHING;
    LaunchParts(s, m.portLow, m.portHigh, b);
    PreservesSelf(s);
    SoundIdsOf(s);
    var i := NextInstanceId(m.world.db.instances.Keys);
    NextIsNew(m.world.db.instances.Keys, i);
    SoundConstraints(s);
    if b in s.db.builds { OpenedConstraints(s.db, i, b); } else { OpenedNeedsBuild(s.db, i, b); }
    var ok := m.Commit(Opened(m.world.db, i, b));
    if !ok {
      return None, true, rt;
    }
    ghost var o := m.world;
    OpenedHasBuild(s.db, i, b);
    OpenedIsSound(s, i, b);
    SoundIdsOf(o);
    OpenedFails(s, i, b);
    FailingIsSound(s, o, i, b, {});
    SoundDistinct(s, b);
    if CanLaunch(s, m.portLow, m.portHigh, b) { SureAfterOpen(s, i, m.portLow, m.portHigh, b); }
    var read := m.Query();
    var networked := false;
    if read && build.challenge in m.world.db.challenges {
      networked := m.NetworkCreate(i);
    }
    if !networked {
      clean := AbandonInstance(m, i, {}, s, b);
      AllFailing(s, i, b, {});
      return None, clean, rt;
    }
    var known := m.world.db.challenges[build.challenge].portMap.Keys;
    var started;
    ok, started := StartContainers(m, i, build, b, known, true, map[]);
    GrownFails(s, o, i, b, started.containers);
    CrashedStarts(s, o, i, b);
    if ok {
      OpenedTags(s, i, b);
      SpawnedBy(s, o, m.world, i, b, started);
      DeployedIsSound(o, m.world, i, started);
      SpawnedParts(s, m.world, i, b, started);
      return Some(i), true, started;
    }
    clean := AbandonInstance(m, i, started.containers, s, b);
    AllFailing(s, i, b, started.containers);
    r := None;
  }

  /** What a start needs: the images are there and their names known, nobody holds a port that
      is not on record, and there are ports for all names. */
  ghost predicate CanLaunch(s: World, low: nat, high: nat, b: BuildId) {
    && b in s.db.builds && s.db.builds[b].challenge in s.db.challenges
    && HeldPorts(s) <= UsedPorts(s.db) && HasImages(s, b)
    && Placeable(s.db, low, high, PublishedNames(s.db.builds[b].output.images), map[])
  }

  /** Its images are tagged, and its names are those of the record. */
  ghost predicate HasImages(s: World, b: BuildId) {
    && b in s.db.builds && s.db.builds[b].challenge in s.db.challenges
    && forall k: nat | Runnable(s.db.builds[b].output.images, k) ::
      && s.db.builds[b].output.images[k].ports <= s.db.challenges[s.db.builds[b].challenge].portMap.Keys
      && TagName(s.db.builds[b].challenge, b, s.db.builds[b].output.images[k].host, "") in s.tags
  }

  lemma LaunchParts(s: World, low: nat, high: nat, b: BuildId)
    ensures CanLaunch(s, low, high, b) ==> b in s.db.builds && s.db.builds[b].challenge in s.db.challenges
  {
  }

  lemma SureAfterOpen(s: World, i: InstanceId, low: nat, high: nat, b: BuildId)
    requires Sound(s) && i !in s.db.instances && CanLaunch(s, low, high, b) && Constraints(Opened(s.db, i, b))
    ensures
      var o, build := s.(db := Opened(s.db, i, b)), s.db.builds[b];
      && i in o.db.instances && o.db.instances[i].runtime.ports == map[] && o.db.challenges == s.db.challenges
      && Sure(o, low, high, build.challenge, b, build.output.images, o.db.challenges[build.challenge].portMap.Keys, map[])
  {
    hide Constraints, Sound, PublishedNames, HeldPorts, UsedPorts, SparePorts;
    OpenedHolds(s, i, b);
    OpenedSpares(s.db, i, b, low, high);
    OpenedHasBuild(s.db, i, b);
  }

  lemma OpenedHolds(s: World, i: InstanceId, b: BuildId)
    ensures HeldPorts(s.(db := Opened(s.db, i, b))) == HeldPorts(s)
  {
    hide Opened;
    var o := s.(db := Opened(s.db, i, b));
    assert forall c, n | c in s.containers :: Holds(o, c, n) <==> Holds(s, c, n);
    assert forall c, n | c in s.containers && Holds(s, c, n) :: HeldPort(o, c, n) == HeldPort(s, c, n);
  }

  lemma OpenedSpares(db: Db, i: InstanceId, b: BuildId, low: nat, high: nat)
    requires i !in db.instances
    ensures UsedPorts(Opened(db, i, b)) == UsedPorts(db) && SparePorts(Opened(db, i, b), low, high) == SparePorts(db, low, high)
  {
    hide UsedPorts, Opened;
    OpenedUsesNoPort(db, i, b);
  }

  lemma OpenedUsesNoPort(db: Db, i: InstanceId, b: BuildId)
    requires i !in db.instances
    ensures UsedPorts(Opened(db, i, b)) == UsedPorts(db)
  {
    var o := Opened(db, i, b);
    forall j, n | j in db.instances && n in db.instances[j].runtime.ports ensures db.instances[j].runtime.ports[n] in UsedPorts(o) {
      assert o.instances[j] == db.instances[j];
    }
  }

  lemma NextIsNew(ids: set<InstanceId>, i: InstanceId)
    requires IsNext(ids, i)
    ensures i !in ids
  {
  }

  lemma PreservesSelf(s: World)
    ensures Preserves(s, s)
  {
  }

  lemma OpenedTags(s: World, i: InstanceId, b: BuildId)
    ensures s.(db := Opened(s.db, i, b)).tags == s.tags
  {
  }

  lemma OpenedNeedsBuild(db: Db, i: InstanceId, b: BuildId)
    requires b !in db.builds
    ensures !Constraints(Opened(db, i, b))
  {
    assert Opened(db, i, b).instances[i].build == b;
  }

  lemma OpenedHasBuild(db: Db, i: InstanceId, b: BuildId)
    requires i !in db.instances && Constraints(Opened(db, i, b))
    ensures Opened(db, i, b).retiredNetworks == db.retiredNetworks
    ensures b in db.builds && i in Opened(db, i, b).instances && Opened(db, i, b).instances[i].runtime == NOTHING
  {
    assert Opened(db, i, b).instances[i].build == b;
  }

  lemma SoundDistinct(s: World, b: BuildId)
    requires Sound(s) && b in s.db.builds
    ensures DistinctImages(s.db.builds[b].output.images)
  {
  }

  lemma AllFailing(s: World, i: InstanceId, b: BuildId, ids: set<ContainerId>)
    requires Sound(s)
    ensures forall d :: Failing(s, d, i, b, ids) ==> Sound(d) && Preserves(s, d)
  {
    hide Sound, Failing, Preserves;
    forall d | Failing(s, d, i, b, ids) ensures Sound(d) && Preserves(s, d) { FailingIsSound(s, d, i, b, ids); }
  }

  /** A crash while containers are being started. */
  lemma CrashedStarts(s: World, o: World, i: InstanceId, b: BuildId)
    requires Sound(s) && Sound(o) && o == s.(db := Opened(s.db, i, b)) && i !in s.db.instances
    ensures forall d :: Grown(o, d) ==> Sound(d) && Preserves(s, d)
  {
    hide Sound;
    forall d | Grown(o, d) ensures Sound(d) && Preserves(s, d) { SoundGrown(o, d); }
  }

  lemma SpawnedParts(s: World, d: World, i: InstanceId, b: BuildId, rt: Runtime)
    requires Spawned(s, d, i, b, rt)
    ensures Preserves(s, d)
  {
  }
}
