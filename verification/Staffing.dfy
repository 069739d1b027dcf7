/** When builds can be given all the instances they are to have (api.go, docker.go). */
module Staffing {
  import opened Store
  import opened Instances
  import opened Placement
  import opened Containers
  import opened Safety
  import opened Lifecycle
  import Moving

  /** One published name of one start that is missing. */
  datatype Vacancy = Vacancy(build: BuildId, number: int, name: string)

  ghost function Vacancies(db: Db, targets: map<BuildId, int>): set<Vacancy> {
    set b, j, n | b in targets && b in db.builds && |InstancesOf(db, b)| <= j < targets[b] && n in PublishedNames(db.builds[b].output.images) :: Vacancy(b, j, n)
  }

  ghost predicate Short(db: Db, targets: map<BuildId, int>, b: BuildId) {
    b in targets && |InstancesOf(db, b)| < targets[b]
  }

  ghost predicate Servable(w: World, low: nat, high: nat, b: BuildId) {
    HasImages(w, b) && Distinguishable(low, high, PublishedNames(w.db.builds[b].output.images), map[])
  }

  /** Whatever is missing can be started: the images are there, nobody holds a port that is not
      on record, and there are ports for all names. */
  ghost predicate CanStaff(w: World, low: nat, high: nat, targets: map<BuildId, int>) {
    && HeldPorts(w) <= UsedPorts(w.db)
    && (forall b | Short(w.db, targets, b) :: Servable(w, low, high, b))
    && |Vacancies(w.db, targets)| <= |SparePorts(w.db, low, high)|
  }

  /** The names of the next instance of `b`. */
  ghost function NextVacancies(db: Db, b: BuildId): set<Vacancy>
    requires b in db.builds
  {
    set n | n in PublishedNames(db.builds[b].output.images) :: Vacancy(b, |InstancesOf(db, b)|, n)
  }

  lemma {:induction false} VacanciesCount(b: BuildId, j: int, names: set<string>)
    ensures |set n | n in names :: Vacancy(b, j, n)| == |names|
    decreases |names|
  {
    var all := set n | n in names :: Vacancy(b, j, n);
    if n :| n in names {
      VacanciesCount(b, j, names - {n});
      assert all == (set k | k in names - {n} :: Vacancy(b, j, k)) + {Vacancy(b, j, n)};
    } else {
      assert all == {};
    }
  }

  lemma CanStart(w: World, low: nat, high: nat, targets: map<BuildId, int>, b: BuildId)
    requires CanStaff(w, low, high, targets) && Short(w.db, targets, b)
    ensures CanLaunch(w, low, high, b)
  {
    hide PublishedNames, SparePorts, HeldPorts, UsedPorts, Distinguishable;
    assert Servable(w, low, high, b);
    var names := PublishedNames(w.db.builds[b].output.images);
    VacanciesCount(b, |InstancesOf(w.db, b)|, names);
    SubsetCounts(NextVacancies(w.db, b), Vacancies(w.db, targets));
    assert NewNames(names, map[]) == names;
  }

  /** A start takes one spare port for each of its names. */
  lemma StaffedByOne(w: World, d: World, low: nat, high: nat, targets: map<BuildId, int>, i: InstanceId, b: BuildId, rt: Runtime)
    requires IdsIssued(w) && CanStaff(w, low, high, targets) && Short(w.db, targets, b) && Spawned(w, d, i, b, rt)
    ensures CanStaff(d, low, high, targets)
  {
    hide PublishedNames, SparePorts, Servable, Spawned;
    SpawnedRow(w, d, i, b, rt);
    SpawnedHolds(w, d, i, b, rt);
    SpawnedTakes(w, d, low, high, i, b, rt);
    FewerVacancies(w, d, targets, i, b, rt);
    forall x | Short(d.db, targets, x)
      ensures Servable(d, low, high, x)
    {
      assert Short(w.db, targets, x) by { MoreOf(w.db, d.db, i, b, rt, x); }
      ServableStays(w, d, low, high, x);
    }
  }

  lemma SpawnedRow(w: World, d: World, i: InstanceId, b: BuildId, rt: Runtime)
    requires Spawned(w, d, i, b, rt)
    ensures i !in w.db.instances && b in w.db.builds && d.db.instances == w.db.instances[i := Instance(b, 0, rt)]
    ensures d.db.builds == w.db.builds && d.db.challenges == w.db.challenges && d.tags == w.tags
    ensures rt.ports.Keys == PublishedNames(w.db.builds[b].output.images)
  {
    hide RunsImages, KeepsPorts, RuntimeImages, PublishedNames, PublishesNames;
    Moving.AllPublished(rt.ports, w.db.builds[b].output.images);
  }

  lemma ServableStays(w: World, d: World, low: nat, high: nat, b: BuildId)
    requires Servable(w, low, high, b) && d.db.builds == w.db.builds && d.db.challenges == w.db.challenges && d.tags == w.tags
    ensures Servable(d, low, high, b)
  {
  }

  lemma MoreOf(s: Db, d: Db, i: InstanceId, b: BuildId, rt: Runtime, x: BuildId)
    requires i !in s.instances && d.instances == s.instances[i := Instance(b, 0, rt)]
    ensures |InstancesOf(d, x)| == |InstancesOf(s, x)| + if x == b then 1 else 0
  {
    assert InstancesOf(d, x) == InstancesOf(s, x) + if x == b then {i} else {};
  }

  lemma FewerVacancies(w: World, d: World, targets: map<BuildId, int>, i: InstanceId, b: BuildId, rt: Runtime)
    requires Short(w.db, targets, b) && i !in w.db.instances && b in w.db.builds
    requires d.db.instances == w.db.instances[i := Instance(b, 0, rt)] && d.db.builds == w.db.builds
    ensures |Vacancies(d.db, targets)| == |Vacancies(w.db, targets)| - |PublishedNames(w.db.builds[b].output.images)|
  {
    hide PublishedNames, InstancesOf;
    forall x ensures |InstancesOf(d.db, x)| == |InstancesOf(w.db, x)| + if x == b then 1 else 0 { MoreOf(w.db, d.db, i, b, rt, x); }
    var gone := NextVacancies(w.db, b);
    VacanciesCount(b, |InstancesOf(w.db, b)|, PublishedNames(w.db.builds[b].output.images));
    assert Vacancies(d.db, targets) == Vacancies(w.db, targets) - gone;
    assert gone <= Vacancies(w.db, targets);
  }

  /** Its containers hold the ports it has on record, and no others have changed. */
  lemma SpawnedHolds(w: World, d: World, i: InstanceId, b: BuildId, rt: Runtime)
    requires IdsIssued(w) && Spawned(w, d, i, b, rt) && HeldPorts(w) <= UsedPorts(w.db)
    ensures HeldPorts(d) <= UsedPorts(d.db)
  {
    hide RuntimeImages, Runs;
    assert d.db.instances[i].runtime == rt;
    forall p | p in UsedPorts(w.db) ensures p in UsedPorts(d.db) {
      var j, n :| j in w.db.instances && n in w.db.instances[j].runtime.ports && w.db.instances[j].runtime.ports[n] == p;
      assert d.db.instances[j] == w.db.instances[j];
    }
    forall c, n | c in d.running && c in d.containers && n in d.containers[c].names && Holds(d, c, n)
      ensures HeldPort(d, c, n) in UsedPorts(d.db)
    {
      if c in rt.containers {
        assert AsRecorded(d, rt, c);
      } else {
        assert c in w.running && c in w.containers;
        assert Holds(w, c, n) && HeldPort(w, c, n) == HeldPort(d, c, n);
      }
    }
  }

  lemma SpawnedTakes(w: World, d: World, low: nat, high: nat, i: InstanceId, b: BuildId, rt: Runtime)
    requires i !in w.db.instances && d.db.instances == w.db.instances[i := Instance(b, 0, rt)]
    ensures |SparePorts(w.db, low, high)| <= |SparePorts(d.db, low, high)| + |rt.ports.Keys|
  {
    hide SparePorts;
    var none: map<string, nat> := map[];
    assert rt.ports.Keys - none.Keys == rt.ports.Keys;
    forall p | p in UsedPorts(d.db)
      ensures p in UsedPorts(w.db) || p in NewPorts(none, rt.ports)
    {
      var j, n :| j in d.db.instances && n in d.db.instances[j].runtime.ports && d.db.instances[j].runtime.ports[n] == p;
      if j == i { assert n in rt.ports.Keys - none.Keys; }
    }
    SpareAfter(w.db, d.db, low, high, none, rt.ports);
  }

  /** It depends on rows and tags only, where all ports held are on record. */
  lemma StaffedAlike(w: World, d: World, low: nat, high: nat, targets: map<BuildId, int>)
    requires d.db.instances == w.db.instances && d.db.builds == w.db.builds && d.db.challenges == w.db.challenges && d.tags == w.tags
    requires HeldPorts(d) <= UsedPorts(d.db) && CanStaff(w, low, high, targets)
    ensures CanStaff(d, low, high, targets)
  {
    hide PublishedNames, Distinguishable, HeldPorts;
    assert UsedPorts(d.db) == UsedPorts(w.db) && SparePorts(d.db, low, high) == SparePorts(w.db, low, high);
    assert Vacancies(d.db, targets) == Vacancies(w.db, targets);
    forall b | Short(d.db, targets, b)
      ensures Servable(d, low, high, b)
    {
      assert Short(w.db, targets, b);
    }
  }
}
