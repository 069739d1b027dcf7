/** When there is all it takes to move the instances of a challenge over (database_challenges.go). */
module Moving {
  import opened Store
  import opened Instances
  import opened Placement
  import opened Containers
  import opened Safety
  import opened Cutover

  /** The names that instances in `ids` had no port for in `base`. */
  ghost function Newcomers(base: Db, images: seq<HostImage>, ids: set<InstanceId>): set<(InstanceId, string)> {
    set i, n | i in ids && n in PublishedNames(images) && !HadPort(base, i, n) :: (i, n)
  }

  ghost predicate HadPort(base: Db, i: InstanceId, n: string) {
    i in base.instances && n in base.instances[i].runtime.ports
  }

  /** The instances in `todo` can be moved over one after the other, whatever ports are drawn:
      their containers are there, all names are known, and there are ports for the new ones. */
  ghost predicate Movable(base: World, now: World, low: nat, high: nat, images: seq<HostImage>, known: set<string>, todo: set<InstanceId>) {
    && Quiet(now)
    && (forall i | i in todo :: i in base.db.instances && base.db.instances[i].runtime.containers <= base.containers.Keys)
    && (forall k: nat | Runnable(images, k) :: images[k].ports <= known)
    && |Newcomers(base.db, images, todo)| <= |SparePorts(now.db, low, high)|
    && (forall i | i in todo && i in base.db.instances :: Distinguishable(low, high, PublishedNames(images), base.db.instances[i].runtime.ports))
  }

  /** Every image has its canonical tag. */
  ghost predicate Tagged(tags: map<TagName, Image>, ch: ChallengeId, b: BuildId, images: seq<HostImage>) {
    forall k: nat | Runnable(images, k) :: TagName(ch, b, images[k].host, "") in tags
  }

  lemma {:induction false} NewcomersOf(base: Db, images: seq<HostImage>, i: InstanceId)
    requires i in base.instances
    ensures |Newcomers(base, images, {i})| == |NewNames(PublishedNames(images), base.instances[i].runtime.ports)|
  {
    hide PublishedNames;
    var new_ := NewNames(PublishedNames(images), base.instances[i].runtime.ports);
    PairsCount(i, new_);
    assert Newcomers(base, images, {i}) == set n | n in new_ :: (i, n);
  }

  lemma {:induction false} PairsCount(i: InstanceId, names: set<string>)
    ensures |set n | n in names :: (i, n)| == |names|
    decreases |names|
  {
    var pairs := set n | n in names :: (i, n);
    if n :| n in names {
      PairsCount(i, names - {n});
      assert pairs == (set k | k in names - {n} :: (i, k)) + {(i, n)};
    } else {
      assert pairs == {};
    }
  }

  lemma NewcomersSplit(base: Db, images: seq<HostImage>, a: set<InstanceId>, b: set<InstanceId>)
    requires a !! b
    ensures |Newcomers(base, images, a + b)| == |Newcomers(base, images, a)| + |Newcomers(base, images, b)|
  {
    hide HadPort, PublishedNames;
    var x, y := Newcomers(base, images, a), Newcomers(base, images, b);
    assert Newcomers(base, images, a + b) == x + y;
    assert x !! y;
  }

  lemma NewcomersAmong(base: Db, images: seq<HostImage>, a: set<InstanceId>, b: set<InstanceId>)
    requires a <= b
    ensures |Newcomers(base, images, a)| <= |Newcomers(base, images, b)|
  {
    SubsetCounts(Newcomers(base, images, a), Newcomers(base, images, b));
  }

  lemma FewerMovable(base: World, now: World, low: nat, high: nat, images: seq<HostImage>, known: set<string>, todo: set<InstanceId>, some: set<InstanceId>)
    requires Movable(base, now, low, high, images, known, todo) && some <= todo
    ensures Movable(base, now, low, high, images, known, some)
  {
    hide Quiet, PublishedNames, Distinguishable, SparePorts;
    NewcomersAmong(base.db, images, some, todo);
  }

  lemma MovesOne(base: World, now: World, low: nat, high: nat, images: seq<HostImage>, known: set<string>, todo: set<InstanceId>, i: InstanceId, ch: ChallengeId, b: BuildId)
    requires Movable(base, now, low, high, images, known, todo) && i in todo && Undiminished(base, now) && Tagged(now.tags, ch, b, images)
    requires i in now.db.instances && i in base.db.instances && now.db.instances[i].runtime == base.db.instances[i].runtime
    ensures Quiet(now) && CanCutOver(now, low, high, i, ch, b, images, known)
  {
    hide Quiet, PublishedNames, Distinguishable, SparePorts;
    NewcomersOf(base.db, images, i);
    NewcomersAmong(base.db, images, {i}, todo);
  }

  /** A cutover takes one spare port for each of its new names. */
  lemma MovedOne(base: World, now: World, next: World, low: nat, high: nat, images: seq<HostImage>, known: set<string>, todo: set<InstanceId>, i: InstanceId, rt: Runtime)
    requires Movable(base, now, low, high, images, known, todo) && i in todo && Quiet(next)
    requires i in now.db.instances && i in base.db.instances && now.db.instances[i].runtime == base.db.instances[i].runtime
    requires next.db.instances == now.db.instances[i := now.db.instances[i].(runtime := rt)]
    requires PublishesNames(rt.ports, images, |images|) && KeepsPorts(base.db.instances[i].runtime.ports, rt.ports)
    ensures Movable(base, next, low, high, images, known, todo - {i})
    ensures |SparePorts(now.db, low, high)| <= |SparePorts(next.db, low, high)| + |Newcomers(base.db, images, {i})|
  {
    hide Quiet, Distinguishable, SparePorts;
    var preferred := base.db.instances[i].runtime.ports;
    UsedAfter(now.db, next.db, i, rt);
    SpareAfter(now.db, next.db, low, high, preferred, rt.ports);
    AllPublished(rt.ports, images);
    hide PublishesNames, KeepsPorts, PublishedNames;
    assert rt.ports.Keys - preferred.Keys == NewNames(PublishedNames(images), preferred);
    NewcomersOf(base.db, images, i);
    NewcomersSplit(base.db, images, todo - {i}, {i});
    assert todo - {i} + {i} == todo;
  }

  lemma UsedAfter(db: Db, d: Db, i: InstanceId, rt: Runtime)
    requires i in db.instances && d.instances == db.instances[i := db.instances[i].(runtime := rt)]
    requires KeepsPorts(db.instances[i].runtime.ports, rt.ports)
    ensures forall p | p in UsedPorts(d) :: p in UsedPorts(db) || p in NewPorts(db.instances[i].runtime.ports, rt.ports)
  {
    forall p | p in UsedPorts(d)
      ensures p in UsedPorts(db) || p in NewPorts(db.instances[i].runtime.ports, rt.ports)
    {
      var j, n :| j in d.instances && n in d.instances[j].runtime.ports && d.instances[j].runtime.ports[n] == p;
      if j == i && n !in db.instances[i].runtime.ports {
        assert n in rt.ports.Keys - db.instances[i].runtime.ports.Keys;
      }
    }
  }

  lemma AllPublished(ports: map<string, nat>, images: seq<HostImage>)
    requires PublishesNames(ports, images, |images|)
    ensures ports.Keys == PublishedNames(images)
  {
    forall n | n in PublishedNames(images) ensures n in ports {
      var k :| 0 <= k < |images| && images[k].host != BUILDER && n in images[k].ports;
      assert Runnable(images, k);
    }
  }

  /** The instances of `all` that are not in `todo` have been moved, and the rest can be. */
  ghost predicate MovesOn(base: World, s: World, now: World, low: nat, high: nat, images: seq<HostImage>, known: set<string>,
                          ch: ChallengeId, b: BuildId, all: set<InstanceId>, todo: set<InstanceId>) {
    && Movable(base, now, low, high, images, known, todo) && Tagged(now.tags, ch, b, images)
    && |SparePorts(s.db, low, high)| <= |SparePorts(now.db, low, high)| + |Newcomers(base.db, images, all - todo)|
  }

  lemma MovesFirst(base: World, s: World, low: nat, high: nat, images: seq<HostImage>, known: set<string>, ch: ChallengeId, b: BuildId, all: set<InstanceId>)
    requires Movable(base, s, low, high, images, known, all) && Tagged(s.tags, ch, b, images)
    ensures MovesOn(base, s, s, low, high, images, known, ch, b, all, all)
  {
    hide Movable, Tagged;
  }

  lemma MovesNext(base: World, s: World, now: World, next: World, low: nat, high: nat, images: seq<HostImage>, known: set<string>,
                  ch: ChallengeId, b: BuildId, all: set<InstanceId>, todo: set<InstanceId>, cut: InstanceCutover)
    requires MovesOn(base, s, now, low, high, images, known, ch, b, all, todo) && Quiet(next) && next.tags == now.tags
    requires cut.instance in todo && todo <= all && Ahead(now, next, cut)
    requires cut.instance in now.db.instances && cut.instance in base.db.instances
    requires now.db.instances[cut.instance].runtime == base.db.instances[cut.instance].runtime
    requires PublishesNames(cut.candidate.ports, images, |images|) && KeepsPorts(cut.old_.ports, cut.candidate.ports)
    ensures MovesOn(base, s, next, low, high, images, known, ch, b, all, todo - {cut.instance})
  {
    hide Movable, Tagged, Quiet, PublishesNames, KeepsPorts, Newcomers, SparePorts;
    MovedOne(base, now, next, low, high, images, known, todo, cut.instance, cut.candidate);
    NewcomersSplit(base.db, images, all - todo, {cut.instance});
    assert all - (todo - {cut.instance}) == (all - todo) + {cut.instance};
  }

  /** What is not about instances or what runs does not matter. */
  lemma MovableStays(base: World, s: World, d: World, low: nat, high: nat, images: seq<HostImage>, known: set<string>, todo: set<InstanceId>)
    requires d.db.instances == s.db.instances && d.containers == s.containers && d.running == s.running && d.picked == s.picked
    ensures Movable(base, s, low, high, images, known, todo) ==> Movable(base, d, low, high, images, known, todo)
    ensures |SparePorts(d.db, low, high)| == |SparePorts(s.db, low, high)| && (Quiet(s) ==> Quiet(d))
  {
    hide Quiet, PublishedNames, Distinguishable;
    assert UsedPorts(d.db) == UsedPorts(s.db);
    assert SparePorts(d.db, low, high) == SparePorts(s.db, low, high);
    SameRowsQuiet(s, d);
  }
}
