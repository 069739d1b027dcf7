/** The `instances`, `containers`, `portAssignments` and `retiredContainers` tables
    (database_instances.go). */
module Instances {
  import opened Store

  const NOTHING := Runtime(map[], {})

  /** The instances of a build. */
  function InstancesOf(db: Db, b: BuildId): (ids: set<InstanceId>)
    ensures forall i :: i in ids <==> i in db.instances && db.instances[i].build == b
  {
    set i | i in db.instances && db.instances[i].build == b
  }

  function InstancesOfBuilds(db: Db, builds: set<BuildId>): (ids: set<InstanceId>)
    ensures forall i :: i in ids <==> i in db.instances && db.instances[i].build in builds
  {
    set i | i in db.instances && db.instances[i].build in builds
  }

  /** The instance now owns exactly `rt`; what it owned before and no longer owns is retired. */
  function ReplaceRuntime(db: Db, i: InstanceId, rt: Runtime): Db
    requires i in db.instances
  {
    var previous := db.instances[i].runtime.containers;
    db.(instances := db.instances[i := db.instances[i].(runtime := rt)],
        retired := (db.retired - rt.containers) + (previous - rt.containers))
  }

  /** The rows of `rt` are added to an instance, and its containers leave the retired set. */
  function AddRuntime(db: Db, i: InstanceId, rt: Runtime): Db
    requires i in db.instances
  {
    var row := db.instances[i];
    db.(instances := db.instances[i := row.(runtime := Runtime(row.runtime.ports + rt.ports, row.runtime.containers + rt.containers))],
        retired := db.retired - rt.containers)
  }

  /** No container is both owned and waiting to be removed. */
  ghost predicate OwnedOrRetired(db: Db) {
    forall i, c | i in db.instances && c in db.instances[i].runtime.containers :: c !in db.retired
  }

  lemma AddIsReplace(db: Db, i: InstanceId, rt: Runtime)
    requires i in db.instances && db.instances[i].runtime == NOTHING
    ensures AddRuntime(db, i, rt) == ReplaceRuntime(db, i, rt)
  {
    assert map[] + rt.ports == rt.ports;
    assert {} + rt.containers == rt.containers;
    assert (db.retired - rt.containers) + ({} - rt.containers) == db.retired - rt.containers;
  }

  lemma ReplaceKeepsOwnership(db: Db, i: InstanceId, rt: Runtime)
    requires i in db.instances && OwnedOrRetired(db)
    requires UniqueContainers(db.instances)
    ensures OwnedOrRetired(ReplaceRuntime(db, i, rt))
  {
  }

  /** Putting the previous runtime back restores every row, and leaves the replacement retired. */
  lemma ReplaceThenRestore(db: Db, i: InstanceId, rt: Runtime)
    requires i in db.instances && OwnedOrRetired(db)
    requires rt.containers !! db.instances[i].runtime.containers && rt.containers !! db.retired
    ensures
      var back := ReplaceRuntime(ReplaceRuntime(db, i, rt), i, db.instances[i].runtime);
      back.(retired := back.retired - rt.containers) == db && back.retired == db.retired + rt.containers
  {
    var owned := db.instances[i].runtime.containers;
    var next := ReplaceRuntime(db, i, rt);
    var back := ReplaceRuntime(next, i, db.instances[i].runtime);
    assert next.instances[i := db.instances[i]] == db.instances;
    assert owned !! db.retired;
    assert next.retired == db.retired + owned;
    assert back.retired == db.retired + rt.containers;
    assert back.retired - rt.containers == db.retired;
  }

  // ---------------------------------------------------------- transactions

  /** Swaps the container and port rows of an existing instance in one transaction. */
  method ReplaceInstanceRuntimeMetadata(m: Manager, i: InstanceId, rt: Runtime) returns (ok: bool)
    requires i in m.world.db.instances
    modifies m
    ensures ok ==> m.world == old(m.world).(db := ReplaceRuntime(old(m.world.db), i, rt)) && Constraints(m.world.db)
    ensures !ok ==> m.world == old(m.world)
    ensures m.reliable && Constraints(ReplaceRuntime(old(m.world.db), i, rt)) ==> ok
    ensures m.crashPoints == old(m.crashPoints) + {m.world}
  {
    var db := m.world.db;
    var previous := db.instances[i].runtime.containers;
    var row, retired := db.instances[i].(runtime := NOTHING), db.retired;

    var names := rt.ports.Keys;
    while names != {}
      invariant names <= rt.ports.Keys
      invariant row == db.instances[i].(runtime := Runtime(rt.ports - names, {}))
    {
      var n :| n in names;
      row := row.(runtime := Runtime(row.runtime.ports[n := rt.ports[n]], row.runtime.containers));
      assert rt.ports - (names - {n}) == (rt.ports - names)[n := rt.ports[n]];
      names := names - {n};
    }
    assert rt.ports - {} == rt.ports;

    var active: set<ContainerId> := {};
    var ids := rt.containers;
    while ids != {}
      invariant ids <= rt.containers && active == rt.containers - ids
      invariant row == db.instances[i].(runtime := Runtime(rt.ports, active))
      invariant retired == db.retired - active
    {
      var c :| c in ids;
      active, retired := active + {c}, retired - {c};
      row := row.(runtime := row.runtime.(containers := row.runtime.containers + {c}));
      ids := ids - {c};
    }
    assert active == rt.containers;

    ids := previous;
    while ids != {}
      invariant ids <= previous
      invariant retired == db.retired - active + (previous - ids - active)
    {
      var c :| c in ids;
      if c !in active {
        retired := retired + {c};
      }
      ids := ids - {c};
    }
    assert previous - {} - active == previous - active;
    ok := m.Commit(db.(instances := db.instances[i := row], retired := retired));
  }

  /** Records what a new instance runs. */
  method FinalizeInstance(m: Manager, i: InstanceId, rt: Runtime) returns (ok: bool)
    modifies m
    ensures ok && i in old(m.world.db.instances) ==>
      m.world == old(m.world).(db := AddRuntime(old(m.world.db), i, rt)) && Constraints(m.world.db)
    ensures ok && i !in old(m.world.db.instances) ==> rt == NOTHING && m.world == old(m.world)
    ensures !ok ==> m.world == old(m.world)
    ensures m.reliable && i in old(m.world.db.instances) && Constraints(AddRuntime(old(m.world.db), i, rt)) ==> ok
    ensures m.crashPoints == old(m.crashPoints) + {m.world}
  {
    if i !in m.world.db.instances {
      // Only the foreign key of an inserted row can object to a missing instance.
      ok := m.Commit(m.world.db);
      ok := ok && rt == NOTHING;
      return;
    }
    ok := m.Commit(AddRuntime(m.world.db, i, rt));
  }
}
