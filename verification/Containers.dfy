/**
 Starting, stopping and reaping the containers of one instance (docker.go).

 A new container is recorded as retired before it is started.  It leaves the
 retired set only in the transaction that hands it to an instance, or once
 Docker no longer has it.
 */
module Containers {
  import opened Store
  import opened Ports
  import opened Instances
  import opened Placement

  // ------------------------------------------------------ what calls change

  /** The containers of `s` that `d` no longer has. */
  ghost function Gone(s: World, d: World): set<ContainerId> {
    s.containers.Keys - d.containers.Keys
  }

  /** Some of `ids` were removed from Docker, and only removed ones were forgotten. */
  ghost predicate Reaped(s: World, d: World, ids: set<ContainerId>) {
    && Gone(s, d) <= ids
    && d.db.retired <= s.db.retired
    && s.db.retired - d.db.retired <= ids
    && (s.db.retired - d.db.retired) !! d.containers.Keys
    && d == WithoutContainers(s, Gone(s, d)).(db := s.db.(retired := d.db.retired))
  }

  ghost predicate SameEntry<K, V>(s: map<K, V>, d: map<K, V>, k: K) {
    (k in s <==> k in d) && (k in s ==> d[k] == s[k])
  }

  /** Containers were started or stopped, and Docker picked ports for those that came to run. */
  ghost predicate RunOnly(s: World, d: World) {
    && d == s.(running := d.running, picked := d.picked)
    && (forall c | c in s.running || c !in d.running :: SameEntry(s.picked, d.picked, c))
  }

  /** Containers were created, recorded as retired, perhaps started, and nothing else:
      every new id is later than `s`, and only the latest may still be unrecorded. */
  ghost predicate Grown(s: World, d: World) {
    && s.nextId <= d.nextId
    && Keeps(s.containers, d.containers)
    && s.running <= d.running
    && s.db.retired <= d.db.retired
    && (forall c | c in d.containers && c !in s.containers :: s.nextId <= c < d.nextId)
    && (forall c | c in d.db.retired && c !in s.db.retired :: s.nextId <= c < d.nextId)
    && (forall c | c in d.running && c !in s.running :: c in d.containers && c !in s.containers && c in d.db.retired)
    && (forall c | c in d.containers && c !in s.containers :: c in d.db.retired || c + 1 == d.nextId)
    && (forall c | c in s.containers || c !in d.containers :: SameEntry(s.picked, d.picked, c))
    && d == s.(db := s.db.(retired := d.db.retired), containers := d.containers, running := d.running, picked := d.picked, nextId := d.nextId)
  }

  ghost predicate Keeps<K, V>(s: map<K, V>, d: map<K, V>) {
    forall k | k in s :: k in d && d[k] == s[k]
  }

  /** Every new container and every new retired id is one of `created`. */
  ghost predicate GrownBy(s: World, d: World, created: set<ContainerId>) {
    && Grown(s, d)
    && (forall c | c in created :: s.nextId <= c < d.nextId)
    && d.containers.Keys <= s.containers.Keys + created
    && d.db.retired <= s.db.retired + created
  }

  /** The host ports the containers of `rt` ask for are ports the instance owns, and no two of
      them publish the same name. */
  ghost predicate FitsRuntime(containers: map<ContainerId, Container>, rt: Runtime) {
    && (forall c, n | c in rt.containers && c in containers && n in containers[c].binds ::
          n in rt.ports && rt.ports[n] == containers[c].binds[n])
    && (forall c, n | c in rt.containers && c in containers && n in containers[c].names :: n in rt.ports)
    && (forall a, b, n | a in rt.containers && b in rt.containers && a in containers && b in containers
                         && n in containers[a].names && n in containers[b].names :: a == b)
    && (forall c | c in rt.containers && c in containers :: containers[c].binds.Keys <= containers[c].names)
  }

  /** What a container has while it runs is what the instance has on record. */
  ghost predicate AsRecorded(w: World, rt: Runtime, c: ContainerId) {
    c in w.containers ==> forall n | Holds(w, c, n) :: n in rt.ports && HeldPort(w, c, n) == rt.ports[n]
  }

  /** The containers ask for every port they publish, so Docker has nothing to pick. */
  ghost predicate Pinned(containers: map<ContainerId, Container>, ids: set<ContainerId>) {
    forall c | c in ids && c in containers :: containers[c].names <= containers[c].binds.Keys
  }

  /** The containers in `rt` are new, recorded, running and fit together. */
  ghost predicate Launched(s: World, d: World, rt: Runtime) {
    && GrownBy(s, d, rt.containers)
    && rt.containers <= d.containers.Keys
    && rt.containers <= d.running <= s.running + rt.containers
    && rt.containers <= d.db.retired
    && FitsRuntime(d.containers, rt)
    && (forall c | c in rt.containers :: AsRecorded(d, rt, c))
  }

  /** Every image an instance of `b` starts from is of generation `g`. */
  ghost predicate TagsOfGeneration(tags: map<TagName, Image>, challenge: ChallengeId, b: BuildId, images: seq<HostImage>, g: string) {
    forall image | image in images && TagName(challenge, b, image.host, "") in tags ::
      tags[TagName(challenge, b, image.host, "")].source == g
  }

  ghost predicate ContainersOfGeneration(containers: map<ContainerId, Container>, ids: set<ContainerId>, g: string) {
    forall c | c in ids && c in containers :: containers[c].image.source == g
  }

  // -------------------------------------------------- what an instance runs

  /** The published names a host exposes. */
  function NamesOf(portMap: map<string, Endpoint>, host: string): (names: set<string>)
    ensures forall n :: n in names <==> n in portMap && portMap[n].host == host
  {
    set n | n in portMap && portMap[n].host == host
  }

  /** One image row per host, in order, each with the published names of its host. */
  ghost predicate Exposes(images: seq<HostImage>, hosts: seq<string>, portMap: map<string, Endpoint>) {
    && |images| == |hosts|
    && (forall k | 0 <= k < |hosts| :: images[k].host == hosts[k])
    && (forall k, n | 0 <= k < |hosts| :: n in images[k].ports <==> n in portMap && portMap[n].host == hosts[k])
  }

  function ImagesOf(hosts: seq<string>, portMap: map<string, Endpoint>): (images: seq<HostImage>)
    ensures Exposes(images, hosts, portMap)
  {
    seq(|hosts|, k requires 0 <= k < |hosts| => HostImage(hosts[k], NamesOf(portMap, hosts[k])))
  }

  /** That is all there is to know of them. */
  lemma ExposesAlike(images: seq<HostImage>, hosts: seq<string>, portMap: map<string, Endpoint>)
    requires Exposes(images, hosts, portMap)
    ensures images == ImagesOf(hosts, portMap)
  {
    var all := ImagesOf(hosts, portMap);
    forall k | 0 <= k < |hosts|
      ensures images[k] == all[k]
    {
      assert images[k].ports == all[k].ports;
    }
  }

  /** Every published name is exposed by the image of its host, and by no other. */
  lemma EveryNameOnce(c: Challenge, n: string)
    requires Recordable(c) && n in c.portMap
    ensures exists k :: 0 <= k < |c.hosts| && n in ImagesOf(c.hosts, c.portMap)[k].ports
    ensures forall k | 0 <= k < |c.hosts| && n in ImagesOf(c.hosts, c.portMap)[k].ports :: c.hosts[k] == c.portMap[n].host
    ensures forall j, k | 0 <= j < |c.hosts| && 0 <= k < |c.hosts| && n in ImagesOf(c.hosts, c.portMap)[j].ports && n in ImagesOf(c.hosts, c.portMap)[k].ports :: j == k
  {
    var k :| 0 <= k < |c.hosts| && c.hosts[k] == c.portMap[n].host;
    assert n in ImagesOf(c.hosts, c.portMap)[k].ports;
  }

  /** So an instance publishes the names of all hosts but the builder. */
  lemma PublishedOf(c: Challenge)
    requires Recordable(c)
    ensures forall n :: n in PublishedNames(ImagesOf(c.hosts, c.portMap)) <==> n in c.portMap && c.portMap[n].host != BUILDER
  {
    var images := ImagesOf(c.hosts, c.portMap);
    forall n | n in c.portMap && c.portMap[n].host != BUILDER
      ensures n in PublishedNames(images)
    {
      var k :| 0 <= k < |c.hosts| && c.hosts[k] == c.portMap[n].host;
      assert n in images[k].ports && images[k].host != BUILDER;
    }
  }

  ghost predicate MadeFrom(tags: map<TagName, Image>, containers: map<ContainerId, Container>, c: ContainerId, tag: TagName, names: set<string>) {
    && tag in tags
    && (c in containers ==> containers[c].image == tags[tag] && containers[c].names == names)
  }

  predicate Runnable(images: seq<HostImage>, k: nat) {
    k < |images| && images[k].host != BUILDER
  }

  /** `order[k]` is the container of image number `k`: every image but the builder's has one
      of its own, made from its canonical tag. */
  ghost predicate InOrder(tags: map<TagName, Image>, containers: map<ContainerId, Container>, ids: set<ContainerId>,
                          challenge: ChallengeId, b: BuildId, images: seq<HostImage>, order: seq<ContainerId>) {
    && |order| == |images|
    && (forall k: nat | Runnable(images, k) ::
          order[k] in ids && MadeFrom(tags, containers, order[k], TagName(challenge, b, images[k].host, ""), images[k].ports))
    && (forall c | c in ids :: exists k: nat :: Runnable(images, k) && order[k] == c)
    && (forall j: nat, k: nat | Runnable(images, j) && Runnable(images, k) && order[j] == order[k] :: j == k)
  }

  ghost predicate RunsImages(tags: map<TagName, Image>, containers: map<ContainerId, Container>, ids: set<ContainerId>,
                             challenge: ChallengeId, b: BuildId, images: seq<HostImage>) {
    exists order :: InOrder(tags, containers, ids, challenge, b, images, order)
  }

  /** `ports` has exactly the names the first `k` images publish. */
  ghost predicate PublishesNames(ports: map<string, nat>, images: seq<HostImage>, k: nat)
    requires k <= |images|
  {
    forall n :: n in ports <==> exists a: nat :: a < k && Runnable(images, a) && n in images[a].ports
  }

  /** A name that had a host port keeps it. */
  ghost predicate KeepsPorts(preferred: map<string, nat>, ports: map<string, nat>) {
    forall n | n in ports && n in preferred :: ports[n] == preferred[n]
  }

  /** `rt` is an instance of the build: its images, their names, and the ports it had. */
  ghost predicate Runs(tags: map<TagName, Image>, containers: map<ContainerId, Container>,
                       challenge: ChallengeId, b: BuildId, images: seq<HostImage>, preferred: map<string, nat>, rt: Runtime) {
    && RunsImages(tags, containers, rt.containers, challenge, b, images)
    && PublishesNames(rt.ports, images, |images|)
    && KeepsPorts(preferred, rt.ports)
  }

  /** Images of one generation make containers of that generation. */
  lemma RunsGeneration(tags: map<TagName, Image>, containers: map<ContainerId, Container>, ids: set<ContainerId>,
                       challenge: ChallengeId, b: BuildId, images: seq<HostImage>, g: string)
    requires RunsImages(tags, containers, ids, challenge, b, images) && TagsOfGeneration(tags, challenge, b, images, g)
    ensures ContainersOfGeneration(containers, ids, g)
  {
    hide *;
    var order := OrderOf(tags, containers, ids, challenge, b, images);
    GenerationInOrder(tags, containers, ids, challenge, b, images, order, g);
  }

  lemma OrderOf(tags: map<TagName, Image>, containers: map<ContainerId, Container>, ids: set<ContainerId>,
                challenge: ChallengeId, b: BuildId, images: seq<HostImage>) returns (order: seq<ContainerId>)
    requires RunsImages(tags, containers, ids, challenge, b, images)
    ensures InOrder(tags, containers, ids, challenge, b, images, order)
  {
    hide InOrder;
    order :| InOrder(tags, containers, ids, challenge, b, images, order);
  }

  lemma GenerationInOrder(tags: map<TagName, Image>, containers: map<ContainerId, Container>, ids: set<ContainerId>,
                          challenge: ChallengeId, b: BuildId, images: seq<HostImage>, order: seq<ContainerId>, g: string)
    requires InOrder(tags, containers, ids, challenge, b, images, order) && TagsOfGeneration(tags, challenge, b, images, g)
    ensures ContainersOfGeneration(containers, ids, g)
  {
    forall c | c in ids && c in containers
      ensures containers[c].image.source == g
    {
      var k: nat :| Runnable(images, k) && order[k] == c;
      assert MadeFrom(tags, containers, c, TagName(challenge, b, images[k].host, ""), images[k].ports);
      assert images[k] in images;
    }
  }

  /** What an instance runs does not change as long as its containers and their tags do not. */
  lemma RunsStays(tags: map<TagName, Image>, containers: map<ContainerId, Container>, tags': map<TagName, Image>, containers': map<ContainerId, Container>,
                  challenge: ChallengeId, b: BuildId, images: seq<HostImage>, preferred: map<string, nat>, rt: Runtime)
    requires Runs(tags, containers, challenge, b, images, preferred, rt)
    requires forall c | c in rt.containers && c in containers' :: c in containers && containers'[c] == containers[c]
    requires forall image | image in images :: var n := TagName(challenge, b, image.host, ""); n in tags ==> n in tags' && tags'[n] == tags[n]
    ensures Runs(tags', containers', challenge, b, images, preferred, rt)
  {
    hide InOrder, PublishesNames, KeepsPorts;
    var order := OrderOf(tags, containers, rt.containers, challenge, b, images);
    OrderStays(tags, containers, tags', containers', challenge, b, images, rt.containers, order);
  }

  lemma OrderStays(tags: map<TagName, Image>, containers: map<ContainerId, Container>, tags': map<TagName, Image>, containers': map<ContainerId, Container>,
                   challenge: ChallengeId, b: BuildId, images: seq<HostImage>, ids: set<ContainerId>, order: seq<ContainerId>)
    requires InOrder(tags, containers, ids, challenge, b, images, order)
    requires forall c | c in ids && c in containers' :: c in containers && containers'[c] == containers[c]
    requires forall image | image in images :: var n := TagName(challenge, b, image.host, ""); n in tags ==> n in tags' && tags'[n] == tags[n]
    ensures InOrder(tags', containers', ids, challenge, b, images, order)
  {
    forall k: nat | Runnable(images, k)
      ensures MadeFrom(tags', containers', order[k], TagName(challenge, b, images[k].host, ""), images[k].ports)
    {
      assert images[k] in images;
    }
  }

  lemma RunnablePrefix(images: seq<HostImage>, k: nat)
    requires k <= |images|
    ensures forall j: nat :: Runnable(images[..k], j) <==> Runnable(images, j) && j < k
    ensures forall j: nat | j < k :: images[..k][j] == images[j]
  {
  }

  lemma OrderedNone(tags: map<TagName, Image>, containers: map<ContainerId, Container>, challenge: ChallengeId, b: BuildId)
    ensures InOrder(tags, containers, {}, challenge, b, [], [])
  {
  }

  lemma OrderedBuilder(tags: map<TagName, Image>, containers: map<ContainerId, Container>, ids: set<ContainerId>,
                       challenge: ChallengeId, b: BuildId, images: seq<HostImage>, k: nat, order: seq<ContainerId>)
    requires k < |images| && images[k].host == BUILDER && InOrder(tags, containers, ids, challenge, b, images[..k], order)
    ensures InOrder(tags, containers, ids, challenge, b, images[..k + 1], order + [0])
  {
    hide MadeFrom;
    RunnablePrefix(images, k);
    RunnablePrefix(images, k + 1);
  }

  lemma OrderedOne(tags: map<TagName, Image>, containers: map<ContainerId, Container>, ids: set<ContainerId>,
                   challenge: ChallengeId, b: BuildId, images: seq<HostImage>, k: nat, order: seq<ContainerId>, id: ContainerId, c: Container)
    requires k < |images| && images[k].host != BUILDER && InOrder(tags, containers, ids, challenge, b, images[..k], order)
    requires id !in ids && MadeFrom(tags, map[id := c], id, TagName(challenge, b, images[k].host, ""), images[k].ports)
    ensures InOrder(tags, containers[id := c], ids + {id}, challenge, b, images[..k + 1], order + [id])
  {
    RunnablePrefix(images, k);
    RunnablePrefix(images, k + 1);
    assert Runnable(images, k);
    forall x | x in ids + {id}
      ensures exists j: nat :: Runnable(images[..k + 1], j) && (order + [id])[j] == x
    {
      if x == id {
        assert Runnable(images[..k + 1], k) && (order + [id])[k] == x;
      } else {
        var j: nat :| Runnable(images[..k], j) && order[j] == x;
        assert Runnable(images[..k + 1], j) && (order + [id])[j] == x;
      }
    }
  }

  // ------------------------------------------------------------- reaping

  lemma ReapedRefl(s: World, ids: set<ContainerId>)
    ensures Reaped(s, s, ids)
  {
    assert WithoutContainers(s, Gone(s, s)).containers == s.containers;
    assert WithoutContainers(s, Gone(s, s)).running == s.running;
  }

  lemma ReapedTrans(s: World, mid: World, d: World, ids: set<ContainerId>)
    requires Reaped(s, mid, ids) && Reaped(mid, d, ids)
    ensures Reaped(s, d, ids)
  {
    assert Gone(s, d) == Gone(s, mid) + Gone(mid, d);
    assert d.containers == s.containers - Gone(s, d);
    assert d.running == s.running - Gone(s, d);
    var f := s.db.retired - mid.db.retired;
    assert s.db.retired - d.db.retired == f + (mid.db.retired - d.db.retired);
    assert d.containers.Keys <= mid.containers.Keys;
  }

  lemma ReapedThen(s: World, mid: World, ids: set<ContainerId>, id: ContainerId)
    requires Reaped(s, mid, ids) && id in ids
    ensures forall d :: Reaped(mid, d, {id}) ==> Reaped(s, d, ids)
  {
    forall d | Reaped(mid, d, {id})
      ensures Reaped(s, d, ids)
    {
      assert {id} <= ids;
      assert Reaped(mid, d, ids);
      ReapedTrans(s, mid, d, ids);
    }
  }

  method RemoveRetiredContainerIDs(m: Manager, ids: set<ContainerId>) returns (ok: bool)
    modifies m
    ensures Reaped(old(m.world), m.world, ids)
    ensures ok ==> ids !! m.world.containers.Keys && ids !! m.world.db.retired
    ensures m.reliable && Constraints(old(m.world.db)) ==> ok && Constraints(m.world.db)
    ensures old(m.crashPoints) <= m.crashPoints
    ensures forall d | d in m.crashPoints :: d in old(m.crashPoints) || Reaped(old(m.world), d, ids)
  {
    hide *;
    ghost var s := m.world;
    ReapedRefl(s, ids);
    ok := true;
    var todo := ids;
    while todo != {}
      invariant todo <= ids
      invariant Reaped(s, m.world, ids)
      invariant ok ==> (ids - todo) !! m.world.containers.Keys && (ids - todo) !! m.world.db.retired
      invariant m.reliable && Constraints(old(m.world.db)) ==> ok && Constraints(m.world.db)
      invariant old(m.crashPoints) <= m.crashPoints
      invariant forall d | d in m.crashPoints :: d in old(m.crashPoints) || Reaped(s, d, ids)
    {
      var id :| id in todo;
      todo := todo - {id};
      ReapedThen(s, m.world, ids, id);
      var done := RemoveRetiredContainer(m, id);
      ok := ok && done;
    }
  }

  lemma ReapedByRemove(s: World, d: World, id: ContainerId)
    requires d == s || (id in s.containers && d == WithoutContainers(s, {id}))
    ensures Reaped(s, d, {id})
    ensures d.containers.Keys <= s.containers.Keys && d.db == s.db
    ensures d == WithoutContainers(s, {id}) ==> id !in d.containers
  {
    if d == s {
      ReapedRefl(s, {id});
    } else {
      assert Gone(s, d) == {id};
    }
  }

  lemma ReapedByForget(s: World, mid: World, d: World, id: ContainerId, ok: bool)
    requires Reaped(s, mid, {id}) && id !in mid.containers
    requires d == if ok then mid.(db := mid.db.(retired := mid.db.retired - {id})) else mid
    ensures Reaped(s, d, {id})
    ensures d.containers.Keys <= s.containers.Keys && d.db.retired <= s.db.retired
    ensures ok ==> id !in d.db.retired
  {
    assert s.db.retired - d.db.retired <= (s.db.retired - mid.db.retired) + {id};
  }

  method RemoveRetiredContainer(m: Manager, id: ContainerId) returns (ok: bool)
    modifies m
    ensures Reaped(old(m.world), m.world, {id})
    ensures m.world.containers.Keys <= old(m.world).containers.Keys
    ensures m.world.db.retired <= old(m.world).db.retired
    ensures ok ==> id !in m.world.containers.Keys && id !in m.world.db.retired
    ensures m.reliable && Constraints(old(m.world.db)) ==> ok && Constraints(m.world.db)
    ensures old(m.crashPoints) <= m.crashPoints
    ensures forall d | d in m.crashPoints :: d in old(m.crashPoints) || Reaped(old(m.world), d, {id})
  {
    hide *;
    ghost var s := m.world;
    var r := m.ContainerRemove(id);
    ghost var mid := m.world;
    ReapedByRemove(s, mid, id);
    if r != Done && r != NotFound {
      return false;
    }
    RetiredIsUnconstrained(mid.db, mid.db.retired - {id});
    ok := m.Commit(m.world.db.(retired := m.world.db.retired - {id}));
    ReapedByForget(s, mid, m.world, id, ok);
  }

  // --------------------------------------------------- pausing and resuming

  /** The world with `ids` stopped. */
  function Halted(w: World, ids: set<ContainerId>): World {
    w.(running := w.running - ids)
  }

  /** Stops containers without removing them; `paused` are the ones known to have stopped.
      `hit` is the one more, if any, whose stop took effect although it was reported to fail. */
  method PauseContainerProcesses(m: Manager, ids: set<ContainerId>) returns (ok: bool, paused: set<ContainerId>, ghost hit: set<ContainerId>)
    modifies m
    ensures paused <= ids && paused <= m.world.containers.Keys && (ok ==> paused == ids)
    ensures hit <= ids && hit <= old(m.world).running && hit !! paused && |hit| <= 1 && (ok || m.reliable ==> hit == {})
    ensures m.world == Halted(old(m.world), paused + hit)
    ensures m.reliable && ids <= old(m.world).containers.Keys ==> ok
    ensures old(m.crashPoints) <= m.crashPoints
    ensures forall d | d in m.crashPoints :: d in old(m.crashPoints) || Paused(old(m.world), d, ids)
  {
    hide *;
    ghost var s := m.world;
    paused, hit := {}, {};
    var todo := ids;
    PausedStep(s, {}, ids);
    while todo != {}
      invariant todo <= ids && paused == ids - todo && paused <= s.containers.Keys && m.world.containers == s.containers
      invariant m.world == Halted(s, paused)
      invariant old(m.crashPoints) <= m.crashPoints
      invariant forall d | d in m.crashPoints :: d in old(m.crashPoints) || Paused(s, d, ids)
    {
      var id :| id in todo;
      var r := m.ContainerStop(id);
      PausedStep(s, paused, ids);
      PausedStep(s, paused + {id}, ids);
      HaltedOne(s, paused, id);
      if r != Done {
        hit := if m.world == Halted(s, paused) || id !in s.running then {} else {id};
        return false, paused, hit;
      }
      todo, paused := todo - {id}, paused + {id};
    }
    ok := true;
  }

  ghost predicate Paused(s: World, d: World, ids: set<ContainerId>) {
    RunOnly(s, d) && s.running - ids <= d.running <= s.running
  }

  lemma PausedStep(s: World, paused: set<ContainerId>, ids: set<ContainerId>)
    ensures paused <= ids ==> Paused(s, Halted(s, paused), ids)
    ensures Halted(s, {}) == s && Halted(s, paused).containers == s.containers
  {
    assert s.running - {} == s.running;
  }

  lemma HaltedOne(s: World, paused: set<ContainerId>, id: ContainerId)
    ensures
      var mid := Halted(s, paused);
      && mid.(running := mid.running - {id}) == Halted(s, paused + {id})
      && (id !in s.running ==> Halted(s, paused + {id}) == mid)
      && Halted(s, paused + {}) == mid
  {
    assert s.running - paused - {id} == s.running - (paused + {id});
    assert paused + {} == paused;
    if id !in s.running { assert s.running - (paused + {id}) == s.running - paused; }
  }

  ghost predicate Resumed(s: World, d: World, ids: set<ContainerId>) {
    RunOnly(s, d) && s.running <= d.running <= s.running + (ids * s.containers.Keys)
  }

  /** Every one of `ids` exists and can start without meeting a port held elsewhere, or picking
      one that another asks for. */
  ghost predicate Startable(w: World, ids: set<ContainerId>) {
    && ids <= w.containers.Keys && Pinned(w.containers, ids)
    && (forall c, n, k | c in ids && n in w.containers[c].binds && k in w.containers[c].binds ::
          w.containers[c].binds[n] == w.containers[c].binds[k] ==> n == k)
    && (forall c, r, n, k | c in ids && r in ids && r != c && n in w.containers[c].binds && k in w.containers[r].binds ::
          w.containers[r].binds[k] != w.containers[c].binds[n])
    && (forall c, r, n, k | c in ids && r in w.running && r in w.containers && r != c && n in w.containers[c].binds && Holds(w, r, k) ::
          HeldPort(w, r, k) != w.containers[c].binds[n])
  }

  lemma StartableStep(w: World, ids: set<ContainerId>, id: ContainerId)
    requires Startable(w, ids) && id in ids
    ensures id in w.containers && PortsFree(w, id)
    ensures forall d :: StartedOrRan(w, d, id) ==> Startable(d, ids)
  {
    forall d | IsStarted(w, d, id)
      ensures Startable(d, ids)
    {
      forall c, r, n, k | c in ids && r in d.running && r in d.containers && r != c && n in d.containers[c].binds && Holds(d, r, k)
        ensures HeldPort(d, r, k) != d.containers[c].binds[n]
      {
        if r != id { assert Holds(w, r, k) && HeldPort(w, r, k) == HeldPort(d, r, k); }
      }
    }
  }

  /** Starts every container it can, reporting whether all of them started. */
  method ResumeContainerProcesses(m: Manager, ids: set<ContainerId>) returns (ok: bool)
    modifies m
    ensures Resumed(old(m.world), m.world, ids)
    ensures ok ==> ids <= m.world.running
    ensures m.reliable && Startable(old(m.world), ids) ==> ok
    ensures old(m.crashPoints) <= m.crashPoints
    ensures forall d | d in m.crashPoints :: d in old(m.crashPoints) || Resumed(old(m.world), d, ids)
  {
    hide *;
    ghost var s := m.world;
    ResumedRefl(s, ids);
    ok := true;
    var todo := ids;
    while todo != {}
      invariant todo <= ids
      invariant Resumed(s, m.world, ids)
      invariant ok ==> ids - todo <= m.world.running
      invariant m.reliable && Startable(s, ids) ==> ok && Startable(m.world, ids)
      invariant old(m.crashPoints) <= m.crashPoints
      invariant forall d | d in m.crashPoints :: d in old(m.crashPoints) || Resumed(s, d, ids)
    {
      var id :| id in todo;
      todo := todo - {id};
      ghost var mid := m.world;
      if Startable(mid, ids) { StartableStep(mid, ids, id); }
      var r := m.ContainerStart(id);
      ResumedStep(s, mid, m.world, id, ids);
      StartedRuns(mid, m.world, id);
      if r != Done {
        ok := false;
      }
    }
  }

  lemma StartedRuns(mid: World, d: World, id: ContainerId)
    ensures StartedOrRan(mid, d, id) ==> id in d.running
    ensures IsStarted(mid, d, id) ==> mid.running <= d.running
    ensures d == mid || IsStarted(mid, d, id) ==> mid.running <= d.running
  {
  }

  lemma ResumedRefl(s: World, ids: set<ContainerId>)
    ensures Resumed(s, s, ids)
  {
  }

  lemma ResumedStep(s: World, mid: World, d: World, id: ContainerId, ids: set<ContainerId>)
    requires Resumed(s, mid, ids) && id in ids
    requires d == mid || (id !in mid.running && IsStarted(mid, d, id))
    ensures Resumed(s, d, ids)
  {
  }

  // --------------------------------------------------------------- starting

  predicate ValidPort(p: nat) {
    0 < p < 65536
  }

  /** The name has a port to keep that is no port, or there is no port left for it. */
  ghost predicate Unselectable(m: Manager, n: string, preferred: map<string, nat>)
    reads m
  {
    if n in preferred then !ValidPort(preferred[n])
    else m.portLow != 0 && forall p | m.portLow <= p <= m.portHigh :: p in UsedPorts(m.world.db)
  }

  /** What a container asks Docker for under a name. */
  function Asked(binds: map<string, nat>, n: string): HostPort {
    if n in binds then Fixed(binds[n]) else Ephemeral
  }

  /** The host ports one container asks Docker for: the ones it had, free ones from the range,
      or whatever Docker picks when there is no range. */
  method SelectHostPorts(m: Manager, names: set<string>, preferred: map<string, nat>)
    returns (ok: bool, binds: map<string, nat>, ghost draws: map<string, nat>)
    requires m.portLow == 0 || m.portLow <= m.portHigh
    ensures ok ==> draws.Keys == names - preferred.Keys && forall n | n in names ::
      Asked(binds, n) == PortOf(UsedPorts(m.world.db), m.portLow, m.portHigh, preferred, draws, n)
    ensures ok ==> forall n :: n in binds <==> n in names && (n in preferred || m.portLow != 0)
    ensures ok ==> forall n | n in binds && n in preferred :: binds[n] == preferred[n] && ValidPort(preferred[n])
    ensures ok ==> forall n | n in binds && n !in preferred :: m.portLow <= binds[n] <= m.portHigh && binds[n] !in UsedPorts(m.world.db)
    ensures m.reliable ==> (ok <==> forall n | n in names :: !Unselectable(m, n, preferred))
  {
    ok := true;
    binds := map[];
    draws := map[];
    var todo := names;
    while todo != {}
      invariant todo <= names
      invariant draws.Keys == names - todo - preferred.Keys
      invariant forall n | n in draws :: Asked(binds, n) == FreePort(m.portLow, m.portHigh, UsedPorts(m.world.db), draws[n])
      invariant forall n :: n in binds <==> n in names - todo && (n in preferred || m.portLow != 0)
      invariant forall n | n in binds && n in preferred :: binds[n] == preferred[n] && ValidPort(preferred[n])
      invariant forall n | n in binds && n !in preferred :: m.portLow <= binds[n] <= m.portHigh && binds[n] !in UsedPorts(m.world.db)
    {
      var n :| n in todo;
      todo := todo - {n};
      if n in preferred {
        if preferred[n] <= 0 || preferred[n] >= 65536 {
          assert Unselectable(m, n, preferred);
          return false, map[], map[];
        }
        binds := binds[n := preferred[n]];
      } else {
        var read := m.Query();
        if !read {
          return false, map[], map[];
        }
        var p;
        ghost var draw;
        p, draw := GetFreePort(m.portLow, m.portHigh, UsedPorts(m.world.db));
        if p == Exhausted {
          assert Unselectable(m, n, preferred);
          return false, map[], map[];
        }
        draws := draws[n := draw];
        if p.Fixed? {
          binds := binds[n := p.port];
        }
      }
    }
  }

  /** Docker's report on a container that should be running: every expected name with the
      host port it holds, or nothing when it exited or never reported its ports. */
  method Inspect(m: Manager, id: ContainerId, names: set<string>) returns (reported: Option<map<string, nat>>)
    requires id in m.world.containers
    ensures m.fortunate && (forall n | n in names :: Holds(m.world, id, n)) ==> reported.Some?
    ensures reported.Some? ==> reported.value.Keys == names
    ensures reported.Some? ==> forall n | n in names :: Holds(m.world, id, n) && reported.value[n] == HeldPort(m.world, id, n)
  {
    var alive := m.Outside();
    if !alive || exists n | n in names :: !Holds(m.world, id, n) {
      return None;
    }
    reported := Some(map n | n in names && Holds(m.world, id, n) :: HeldPort(m.world, id, n));
  }

  /** `w` after a container was created, recorded as retired and started; Docker picked `ports`. */
  function WithContainer(w: World, c: Container, ports: map<string, nat>): World {
    Started(Recorded(Created(w, c), w.nextId), w.nextId, ports)
  }

  function Created(w: World, c: Container): World {
    w.(containers := w.containers[w.nextId := c], nextId := w.nextId + 1)
  }

  function Recorded(w: World, id: ContainerId): World {
    w.(db := w.db.(retired := w.db.retired + {id}))
  }

  function Started(w: World, id: ContainerId, ports: map<string, nat>): World {
    w.(running := w.running + {id}, picked := w.picked[id := ports])
  }

  /** Ids in use were handed out by Docker earlier, and only existing containers run. */
  ghost predicate IdsIssued(w: World) {
    && (forall c | c in w.containers :: c < w.nextId)
    && (forall c | c in w.db.retired :: c < w.nextId)
    && (forall c | c in w.running :: c in w.containers)
    && (forall c | c in w.picked :: c in w.containers)
    && (forall i, c | i in w.db.instances && c in w.db.instances[i].runtime.containers :: c < w.nextId)
  }

  lemma GrowNone(s: World)
    requires IdsIssued(s)
    ensures GrownBy(s, s, {})
  {
  }

  lemma GrowCreated(s: World, c: Container)
    requires IdsIssued(s)
    ensures GrownBy(s, Created(s, c), {s.nextId})
  {
  }

  lemma GrowRecorded(s: World, c: Container)
    requires IdsIssued(s)
    ensures GrownBy(s, Recorded(Created(s, c), s.nextId), {s.nextId})
  {
  }

  lemma GrowStarted(s: World, c: Container)
    requires IdsIssued(s)
    ensures forall ports :: GrownBy(s, WithContainer(s, c, ports), {s.nextId})
  {
  }

  lemma GrownByIsGrown(s: World, ids: set<ContainerId>)
    ensures forall d :: GrownBy(s, d, ids) ==> Grown(s, d)
  {
  }

  /** Docker's report: the ports asked for, and those it picked. */
  ghost predicate ReportedPorts(names: set<string>, binds: map<string, nat>, ports: map<string, nat>, reported: map<string, nat>) {
    && reported.Keys == names && ports.Keys == names - binds.Keys
    && (forall n | n in binds :: n in reported && reported[n] == binds[n])
    && (forall n | n in ports :: n in reported && reported[n] == ports[n])
  }

  /** At most the next container has come to run, on ports Docker found free. */
  ghost predicate StartsOne(w: World, d: World, names: set<string>, binds: map<string, nat>) {
    && Grown(w, d)
    && d.running <= w.running + {w.nextId}
    && (w.nextId in d.running ==>
          w.nextId in d.containers && d.containers[w.nextId].names == names && d.containers[w.nextId].binds == binds && PortsFree(d, w.nextId))
  }

  /** Creates, records and starts the container of one image. */
  method StartContainer(m: Manager, tag: TagName, names: set<string>, binds: map<string, nat>)
    returns (reported: Option<map<string, nat>>, created: set<ContainerId>, ghost ports: map<string, nat>)
    requires IdsIssued(m.world)
    requires binds.Keys <= names
    modifies m
    ensures GrownBy(old(m.world), m.world, created)
    ensures reported.Some? ==>
      && created == {old(m.world).nextId}
      && tag in old(m.world).tags
      && m.world == WithContainer(old(m.world), Container(old(m.world).tags[tag], names, binds), ports)
      && created <= m.world.containers.Keys && PortsFree(m.world, old(m.world).nextId)
      && ReportedPorts(names, binds, ports, reported.value)
    ensures StartsOne(old(m.world), m.world, names, binds)
    ensures m.reliable && m.fortunate && Constraints(old(m.world).db) && tag in old(m.world).tags && BindsFree(old(m.world), binds) ==> reported.Some?
    ensures m.fortunate && reported.Some? && |names - binds.Keys| <= |LeftPorts(old(m.world))| ==> PickedFrom(LeftPorts(old(m.world)), ports)
    ensures old(m.crashPoints) <= m.crashPoints
    ensures forall d | d in m.crashPoints :: d in old(m.crashPoints) || StartsOne(old(m.world), d, names, binds)
  {
    hide *;
    ghost var s := m.world;
    ghost var c := Container(if tag in s.tags then s.tags[tag] else NO_IMAGE, names, binds);
    GrowNone(s);
    GrowCreated(s, c);
    GrowRecorded(s, c);
    StartSteps(s, c);
    StartsOneSteps(s, c);
    RetiredIsUnconstrained(s.db, s.db.retired + {s.nextId});
    ports := map[];
    var id := m.ContainerCreate(tag, names, binds);
    if id.None? {
      return None, {}, ports;
    }
    created := {id.value};
    assert m.world == Created(s, c);
    assert forall d | d in m.crashPoints :: d in old(m.crashPoints) || StartsOne(s, d, names, binds);
    var recorded := m.Commit(m.world.db.(retired := m.world.db.retired + {id.value}));
    assert forall d | d in m.crashPoints :: d in old(m.crashPoints) || StartsOne(s, d, names, binds);
    if !recorded {
      return None, created, ports;
    }
    ghost var w := m.world;
    assert w == Recorded(Created(s, c), s.nextId);
    reported, ports := RunContainer(m, id.value, names, s, c);
    if m.world != w {
      GrowStarted(s, c);
      StartsOneRun(s, c, ports);
    }
  }

  /** Starts a container that was just created and recorded, and asks for its ports. */
  method RunContainer(m: Manager, id: ContainerId, names: set<string>, ghost s: World, ghost c: Container)
    returns (reported: Option<map<string, nat>>, ghost ports: map<string, nat>)
    requires IdsIssued(s) && id == s.nextId && m.world == Recorded(Created(s, c), id) && names == c.names && c.binds.Keys <= names
    modifies m
    ensures m.world == old(m.world) || (m.world == WithContainer(s, c, ports) && PortsFree(old(m.world), id))
    ensures reported.Some? ==>
      && m.world == WithContainer(s, c, ports) && m.world != old(m.world)
      && id in m.world.containers && PortsFree(m.world, id) && ReportedPorts(names, c.binds, ports, reported.value)
    ensures m.reliable && m.fortunate && BindsFree(s, c.binds) ==> reported.Some?
    ensures m.fortunate && reported.Some? && |names - c.binds.Keys| <= |LeftPorts(s)| ==> PickedFrom(LeftPorts(s), ports)
    ensures m.crashPoints == old(m.crashPoints) + {m.world}
  {
    hide *;
    ghost var w := m.world;
    CreatedHoldsNothing(s, c);
    StartSteps(s, c);
    ports := map[];
    var r := m.ContainerStart(id);
    if m.world != w {
      StartedSteps(s, c, m.world);
      ports := m.world.picked[id];
      StartedIsFree(s, c, ports);
      PicksKnown(s, c, ports);
      PicksHeld(s, c, ports);
    }
    StartedRan(w, m.world, id);
    if r != Done {
      return None, ports;
    }
    reported := Inspect(m, id, names);
    if reported.Some? { StartedHolds(s, c, ports, reported.value); }
  }

  lemma StartedRan(w: World, d: World, id: ContainerId)
    ensures StartedOrRan(w, d, id) && id !in w.running ==> d != w && IsStarted(w, d, id)
  {
    if StartedOrRan(w, d, id) && id !in w.running { assert id in d.running; }
  }

  /** The calls before the start. */
  lemma StartSteps(s: World, c: Container)
    requires IdsIssued(s)
    ensures s.(containers := s.containers[s.nextId := c], nextId := s.nextId + 1) == Created(s, c)
    ensures Created(s, c).(db := s.db.(retired := s.db.retired + {s.nextId})) == Recorded(Created(s, c), s.nextId)
    ensures
      var w := Recorded(Created(s, c), s.nextId);
      Created(s, c).db == s.db && s.nextId !in w.running && s.nextId in w.containers && w.containers[s.nextId] == c
  {
  }

  lemma StartedSteps(s: World, c: Container, d: World)
    requires IsStarted(Recorded(Created(s, c), s.nextId), d, s.nextId)
    ensures s.nextId in d.picked && s.nextId in d.containers && Picks(c, d.picked[s.nextId]) && d == WithContainer(s, c, d.picked[s.nextId])
  {
  }

  lemma PicksKnown(s: World, c: Container, ports: map<string, nat>)
    requires IdsIssued(s)
    ensures
      var w := Recorded(Created(s, c), s.nextId);
      s.nextId in w.containers && (PicksWell(w, s.nextId, ports) ==> |c.names - c.binds.Keys| <= |LeftPorts(s)| ==> PickedFrom(LeftPorts(s), ports))
  {
    hide PickedFrom;
    CreatedHoldsNothing(s, c);
  }

  lemma StartsOneSteps(s: World, c: Container)
    requires IdsIssued(s)
    ensures StartsOne(s, s, c.names, c.binds) && StartsOne(s, Created(s, c), c.names, c.binds)
    ensures StartsOne(s, Recorded(Created(s, c), s.nextId), c.names, c.binds)
  {
    hide PortsFree, IdsIssued, Grown, GrownBy;
    GrowNone(s);
    GrowCreated(s, c);
    GrowRecorded(s, c);
    GrownByIsGrown(s, {});
    GrownByIsGrown(s, {s.nextId});
    NextNeverRan(s);
  }

  lemma StartsOneRun(s: World, c: Container, ports: map<string, nat>)
    requires IdsIssued(s)
    requires var w := Recorded(Created(s, c), s.nextId); s.nextId in w.containers && PortsFree(w, s.nextId)
    ensures StartsOne(s, WithContainer(s, c, ports), c.names, c.binds)
  {
    hide PortsFree, IdsIssued, Grown, GrownBy;
    GrowStarted(s, c);
    GrownByIsGrown(s, {s.nextId});
    StartedIsFree(s, c, ports);
  }

  /** Nobody holds a port that is asked for, nor is one asked for twice. */
  ghost predicate BindsFree(w: World, binds: map<string, nat>) {
    Different(binds) && forall n | n in binds :: binds[n] !in HeldPorts(w)
  }

  lemma CreatedHoldsNothing(s: World, c: Container)
    requires IdsIssued(s)
    ensures
      var w := Recorded(Created(s, c), s.nextId);
      && s.nextId in w.containers && w.containers[s.nextId] == c
      && (BindsFree(s, c.binds) ==> PortsFree(w, s.nextId)) && LeftPorts(w) == LeftPorts(s)
  {
    hide PickedFrom;
    var w := Recorded(Created(s, c), s.nextId);
    forall r, k | r in s.running && r in s.containers
      ensures (Holds(w, r, k) <==> Holds(s, r, k)) && (Holds(s, r, k) ==> HeldPort(w, r, k) == HeldPort(s, r, k))
    {
    }
    assert HeldPorts(w) == HeldPorts(s);
    assert UsedPorts(w.db) == UsedPorts(s.db);
    assert LeftPorts(w) == LeftPorts(s);
  }

  lemma PicksHeld(s: World, c: Container, ports: map<string, nat>)
    requires Picks(c, ports)
    ensures
      var d := WithContainer(s, c, ports);
      s.nextId in d.containers && forall n | n in c.names :: Holds(d, s.nextId, n)
  {
  }

  lemma NextNeverRan(s: World)
    requires IdsIssued(s)
    ensures s.nextId !in s.running
  {
  }

  lemma StartedIsFree(s: World, c: Container, ports: map<string, nat>)
    ensures
      var w := Recorded(Created(s, c), s.nextId);
      && s.nextId in w.containers && s.nextId in WithContainer(s, c, ports).containers
      && (PortsFree(w, s.nextId) ==> PortsFree(WithContainer(s, c, ports), s.nextId))
  {
    var w := Recorded(Created(s, c), s.nextId);
    var d := Started(w, s.nextId, ports);
    forall r, k | r in d.containers && r != s.nextId && Holds(d, r, k)
      ensures Holds(w, r, k) && HeldPort(w, r, k) == HeldPort(d, r, k)
    {
    }
  }

  lemma StartedHolds(s: World, c: Container, ports: map<string, nat>, reported: map<string, nat>)
    requires Picks(c, ports) && c.binds.Keys <= c.names && reported.Keys == c.names
    requires var d := WithContainer(s, c, ports); forall n | n in c.names :: Holds(d, s.nextId, n) && reported[n] == HeldPort(d, s.nextId, n)
    ensures ReportedPorts(c.names, c.binds, ports, reported)
  {
  }

  /** No host port is asked for twice. */
  ghost predicate BindsApart(containers: map<ContainerId, Container>, ids: set<ContainerId>) {
    forall a, c, n, k | a in ids && c in ids && a in containers && c in containers && n in containers[a].binds && k in containers[c].binds ::
      containers[a].binds[n] == containers[c].binds[k] ==> a == c && n == k
  }

  /** Docker lets a container run only beside others that hold other ports. */
  lemma BindsApartOn(s: World, w: World, rt: Runtime, new_: Container, ports: map<string, nat>)
    requires IdsIssued(w) && Launched(s, w, rt) && BindsApart(w.containers, rt.containers)
    requires w.nextId in WithContainer(w, new_, ports).containers && PortsFree(WithContainer(w, new_, ports), w.nextId)
    ensures BindsApart(WithContainer(w, new_, ports).containers, rt.containers + {w.nextId})
  {
    hide GrownBy, AsRecorded;
    var d := WithContainer(w, new_, ports);
    forall c, n | c in rt.containers && n in w.containers[c].binds
      ensures c != w.nextId && c in d.running && d.containers[c] == w.containers[c] && Holds(d, c, n) && HeldPort(d, c, n) == w.containers[c].binds[n]
    {
    }
  }

  /** Containers that have come to run since `s` publish ports the instance had or nobody had on
      record, each name in one container only, and Docker found those ports free. */
  ghost predicate Allocated(s: World, d: World, preferred: map<string, nat>) {
    forall c | c in d.running && c !in s.running ::
      && c in d.containers
      && ChosenPorts(s.db, preferred, d.containers[c].names, d.containers[c].binds)
      && PortsFree(d, c)
      && (forall e, n | e in d.running && e !in s.running && e in d.containers && e != c && n in d.containers[e].names :: n !in d.containers[c].names)
  }

  ghost predicate ChosenPorts(db: Db, preferred: map<string, nat>, names: set<string>, binds: map<string, nat>) {
    && binds.Keys == names
    && (forall n | n in binds :: if n in preferred then binds[n] == preferred[n] else binds[n] !in UsedPorts(db))
  }

  lemma SelectedIsChosen(s: World, w: World, rt: Runtime, preferred: map<string, nat>, names: set<string>, binds: map<string, nat>)
    requires Launched(s, w, rt) && binds.Keys == names
    requires forall n | n in binds && n in preferred :: binds[n] == preferred[n]
    requires forall n | n in binds && n !in preferred :: binds[n] !in UsedPorts(w.db)
    ensures ChosenPorts(s.db, preferred, names, binds)
  {
    hide FitsRuntime, AsRecorded;
  }

  /** Of what is created next only the latest container may come to run. */
  lemma AllocatedOn(s: World, w: World, rt: Runtime, preferred: map<string, nat>, names: set<string>, binds: map<string, nat>)
    requires IdsIssued(w) && Launched(s, w, rt) && Allocated(s, w, preferred)
    requires names !! rt.ports.Keys && ChosenPorts(s.db, preferred, names, binds)
    ensures forall d :: StartsOne(w, d, names, binds) ==> Allocated(s, d, preferred)
  {
    hide *;
    forall d | StartsOne(w, d, names, binds)
      ensures Allocated(s, d, preferred)
    {
      AllocatedOneMore(s, w, d, rt, preferred, names, binds);
    }
  }

  lemma StillFree(w: World, d: World, names: set<string>, binds: map<string, nat>, c: ContainerId)
    requires IdsIssued(w) && StartsOne(w, d, names, binds) && binds.Keys == names
    requires c in w.running && c in w.containers && w.containers[c].binds.Keys == w.containers[c].names && PortsFree(w, c)
    ensures c in d.containers && PortsFree(d, c)
  {
    assert d.containers[c] == w.containers[c];
    forall r, n, k | r in d.running && r in d.containers && r != c && n in d.containers[c].binds && k in d.containers[r].names && Holds(d, r, k)
      ensures HeldPort(d, r, k) != d.containers[c].binds[n]
    {
      if r == w.nextId {
        assert Holds(d, c, n);
      } else {
        assert Holds(w, r, k) && HeldPort(w, r, k) == HeldPort(d, r, k);
      }
    }
  }

  lemma AllocatedOne(s: World, w: World, d: World, rt: Runtime, preferred: map<string, nat>, names: set<string>, binds: map<string, nat>, c: ContainerId)
    requires IdsIssued(w) && Launched(s, w, rt) && Allocated(s, w, preferred) && ChosenPorts(s.db, preferred, names, binds)
    requires StartsOne(w, d, names, binds) && c in d.running && c !in s.running
    ensures c in d.containers && ChosenPorts(s.db, preferred, d.containers[c].names, d.containers[c].binds) && PortsFree(d, c)
    ensures if c == w.nextId then d.containers[c].names == names else
      c in w.running && c in w.containers && d.containers[c] == w.containers[c] && d.containers[c].names <= rt.ports.Keys
  {
    hide AsRecorded, PortsFree, Holds, HeldPort, UsedPorts;
    if c != w.nextId { StillFree(w, d, names, binds, c); }
  }

  lemma AllocatedOneMore(s: World, w: World, d: World, rt: Runtime, preferred: map<string, nat>, names: set<string>, binds: map<string, nat>)
    requires IdsIssued(w) && Launched(s, w, rt) && Allocated(s, w, preferred) && ChosenPorts(s.db, preferred, names, binds)
    requires names !! rt.ports.Keys && StartsOne(w, d, names, binds)
    ensures Allocated(s, d, preferred)
  {
    hide AsRecorded, ChosenPorts, PortsFree, IdsIssued, Launched, Grown, StartsOne;
    forall c | c in d.running && c !in s.running
      ensures c in d.containers && ChosenPorts(s.db, preferred, d.containers[c].names, d.containers[c].binds) && PortsFree(d, c)
      ensures if c == w.nextId then d.containers[c].names == names else
        c in w.running && c in w.containers && d.containers[c] == w.containers[c] && d.containers[c].names <= rt.ports.Keys
    {
      AllocatedOne(s, w, d, rt, preferred, names, binds, c);
    }
  }

  /** What a start has done so far. */
  ghost predicate Starting(s: World, d: World, low: nat, preferred: map<string, nat>) {
    Grown(s, d) && (low != 0 ==> Allocated(s, d, preferred))
  }

  lemma StartingNone(s: World, low: nat, preferred: map<string, nat>)
    requires IdsIssued(s)
    ensures Starting(s, s, low, preferred)
  {
  }

  lemma StartingOn(s: World, w: World, rt: Runtime, low: nat, preferred: map<string, nat>, names: set<string>, binds: map<string, nat>)
    requires IdsIssued(w) && Launched(s, w, rt) && Starting(s, w, low, preferred) && names !! rt.ports.Keys
    requires low != 0 ==> binds.Keys == names
    requires forall n | n in binds && n in preferred :: binds[n] == preferred[n]
    requires forall n | n in binds && n !in preferred :: binds[n] !in UsedPorts(w.db)
    ensures forall d :: StartsOne(w, d, names, binds) ==> Starting(s, d, low, preferred)
  {
    hide Launched, ChosenPorts, Allocated, Grown, IdsIssued, UsedPorts;
    GrownOn(s, w, rt);
    if low != 0 {
      SelectedIsChosen(s, w, rt, preferred, names, binds);
      AllocatedOn(s, w, rt, preferred, names, binds);
    }
    forall d | StartsOne(w, d, names, binds) ensures Grown(w, d) { }
  }

  /** No two images are of one host or publish one name. */
  ghost predicate DistinctImages(images: seq<HostImage>) {
    && OneImagePerHost(images)
    && (forall a, b, n | 0 <= a < b < |images| && n in images[a].ports :: n !in images[b].ports)
  }

  lemma GrownOn(s: World, w: World, rt: Runtime)
    requires Launched(s, w, rt)
    ensures forall d :: Grown(w, d) ==> Grown(s, d)
    ensures forall d, more :: GrownBy(w, d, more) ==> GrownBy(s, d, rt.containers + more)
  {
    hide GrownBy, FitsRuntime, AsRecorded;
    assert GrownBy(s, w, rt.containers);
    forall d | Grown(w, d) ensures Grown(s, d) { GrownTwice(s, w, d, rt.containers); }
    forall d, more | GrownBy(w, d, more) ensures GrownBy(s, d, rt.containers + more) { GrownByTwice(s, w, d, rt.containers, more); }
  }

  lemma GrownTwice(s: World, w: World, d: World, ids: set<ContainerId>)
    requires GrownBy(s, w, ids) && ids <= w.db.retired && Grown(w, d)
    ensures Grown(s, d)
  {
  }

  lemma GrownByTwice(s: World, w: World, d: World, ids: set<ContainerId>, more: set<ContainerId>)
    requires GrownBy(s, w, ids) && ids <= w.db.retired && GrownBy(w, d, more)
    ensures GrownBy(s, d, ids + more)
  {
    GrownTwice(s, w, d, ids);
    hide Grown;
    assert s.nextId <= w.nextId <= d.nextId by { GrownIds(s, w); GrownIds(w, d); }
  }

  lemma GrownIds(s: World, d: World)
    requires Grown(s, d)
    ensures s.nextId <= d.nextId
  {
  }

  lemma FitsOne(containers: map<ContainerId, Container>, rt: Runtime, id: ContainerId, c: Container, ports: map<string, nat>, reported: map<string, nat>)
    requires FitsRuntime(containers, rt) && id !in containers && id !in rt.containers
    requires reported.Keys !! rt.ports.Keys && c.binds.Keys <= c.names && ReportedPorts(c.names, c.binds, ports, reported)
    ensures FitsRuntime(containers[id := c], Runtime(rt.ports + reported, rt.containers + {id}))
  {
  }

  lemma RecordedOne(w: World, rt: Runtime, new_: Container, ports: map<string, nat>, reported: map<string, nat>)
    requires rt.containers <= w.containers.Keys && w.nextId !in w.containers && forall c | c in rt.containers :: AsRecorded(w, rt, c)
    requires FitsRuntime(w.containers, rt)
    requires reported.Keys !! rt.ports.Keys && ReportedPorts(new_.names, new_.binds, ports, reported)
    ensures
      var d := WithContainer(w, new_, ports);
      forall c | c in rt.containers + {w.nextId} :: AsRecorded(d, Runtime(rt.ports + reported, rt.containers + {w.nextId}), c)
  {
    var d := WithContainer(w, new_, ports);
    forall c, n | c in rt.containers && Holds(d, c, n)
      ensures n in rt.ports && n !in reported && HeldPort(d, c, n) == rt.ports[n]
    {
      assert AsRecorded(w, rt, c) && Holds(w, c, n);
    }
  }

  lemma LaunchedOne(s: World, w: World, rt: Runtime, new_: Container, ports: map<string, nat>, reported: map<string, nat>)
    requires IdsIssued(s) && IdsIssued(w)
    requires Launched(s, w, rt)
    requires reported.Keys !! rt.ports.Keys && new_.binds.Keys <= new_.names && ReportedPorts(new_.names, new_.binds, ports, reported)
    ensures
      var rt' := Runtime(rt.ports + reported, rt.containers + {w.nextId});
      && Launched(s, WithContainer(w, new_, ports), rt')
      && |rt'.containers| == |rt.containers| + 1
  {
    hide FitsRuntime, Grown, GrownBy, AsRecorded, ReportedPorts;
    GrowStarted(w, new_);
    GrownOn(s, w, rt);
    assert w.nextId !in rt.containers;
    RecordedOne(w, rt, new_, ports, reported);
    FitsOne(w.containers, rt, w.nextId, new_, ports, reported);
  }

  lemma LaunchedKeepsIds(s: World, w: World, rt: Runtime)
    requires IdsIssued(s) && Launched(s, w, rt)
    ensures IdsIssued(w)
  {
  }

  lemma RuntimeImagesPrefix(images: seq<HostImage>, k: nat)
    requires k < |images|
    ensures RuntimeImages(images[..k + 1]) == RuntimeImages(images[..k]) + if images[k].host == BUILDER then 0 else 1
    decreases k
  {
    if k == 0 {
      assert images[..1][1..] == [];
    } else {
      assert images[..k + 1][1..] == images[1..][..k];
      assert images[..k][1..] == images[1..][..k - 1];
      RuntimeImagesPrefix(images[1..], k - 1);
    }
  }

  lemma LaterNames(ports: map<string, nat>, images: seq<HostImage>, k: nat)
    requires k < |images| && DistinctImages(images) && PublishesNames(ports, images, k)
    ensures images[k].ports !! ports.Keys
  {
  }

  lemma NamesOfLaterImage(ports: map<string, nat>, images: seq<HostImage>, k: nat, reported: map<string, nat>)
    requires k < |images| && DistinctImages(images) && images[k].host != BUILDER
    requires PublishesNames(ports, images, k) && reported.Keys == images[k].ports
    ensures reported.Keys !! ports.Keys
    ensures PublishesNames(ports + reported, images, k + 1)
  {
    assert Runnable(images, k);
  }

  lemma NamesOfBuilder(ports: map<string, nat>, images: seq<HostImage>, k: nat)
    requires k < |images| && images[k].host == BUILDER && PublishesNames(ports, images, k)
    ensures PublishesNames(ports, images, k + 1)
  {
  }

  lemma PortsKeptOn(preferred: map<string, nat>, ports: map<string, nat>, names: set<string>, binds: map<string, nat>, reported: map<string, nat>)
    requires KeepsPorts(preferred, ports) && reported.Keys == names
    requires forall n | n in names && n in preferred :: n in binds && binds[n] == preferred[n]
    requires forall n | n in binds :: n in reported && reported[n] == binds[n]
    ensures KeepsPorts(preferred, ports + reported)
  {
  }

  lemma OrderedOn(s: World, w: World, rt: Runtime, challenge: ChallengeId, b: BuildId, images: seq<HostImage>, k: nat, order: seq<ContainerId>, c: Container, ports: map<string, nat>)
    requires IdsIssued(w) && Launched(s, w, rt) && k < |images| && images[k].host != BUILDER
    requires InOrder(s.tags, w.containers, rt.containers, challenge, b, images[..k], order)
    requires TagName(challenge, b, images[k].host, "") in w.tags
    requires c.image == w.tags[TagName(challenge, b, images[k].host, "")] && c.names == images[k].ports
    ensures InOrder(s.tags, WithContainer(w, c, ports).containers, rt.containers + {w.nextId},
                    challenge, b, images[..k + 1], order + [w.nextId])
  {
    hide InOrder, FitsRuntime, AsRecorded;
    assert w.tags == s.tags;
    OrderedOne(s.tags, w.containers, rt.containers, challenge, b, images, k, order, w.nextId, c);
  }

  lemma LaunchedIsGrown(s: World, w: World, rt: Runtime)
    requires Launched(s, w, rt)
    ensures GrownBy(s, w, rt.containers) && w.tags == s.tags && w.artifacts == s.artifacts
  {
  }

  lemma NoBinds(containers: map<ContainerId, Container>)
    ensures BindsApart(containers, {}) && Pinned(containers, {})
  {
  }

  lemma LaunchedNone(s: World, ids: set<ContainerId>)
    requires IdsIssued(s)
    ensures Launched(s, s, Runtime(map[], {}))
    ensures RuntimeImages([]) == 0
  {
  }

  // ---------------------------------------------------- starts that are sure

  /** The names that all containers of an instance publish. */
  ghost function PublishedNames(images: seq<HostImage>): set<string> {
    set k, n | 0 <= k < |images| && images[k].host != BUILDER && n in images[k].ports :: n
  }

  /** What a start needs besides ports for its new names: its images, names that are known, and
      that nobody holds the ports it keeps or any that are not on record. */
  ghost predicate Ready(s: World, challenge: ChallengeId, b: BuildId, images: seq<HostImage>, known: set<string>, preferred: map<string, nat>) {
    && Constraints(s.db) && Keepable(s.db, preferred)
    && (forall k: nat | Runnable(images, k) :: images[k].ports <= known && TagName(challenge, b, images[k].host, "") in s.tags)
    && (forall p | p in HeldPorts(s) :: p in UsedPorts(s.db) && forall n | n in preferred :: preferred[n] != p)
  }

  /** A start that nothing but a fault can keep from succeeding. */
  ghost predicate Sure(s: World, low: nat, high: nat, challenge: ChallengeId, b: BuildId, images: seq<HostImage>, known: set<string>, preferred: map<string, nat>) {
    Ready(s, challenge, b, images, known, preferred) && Placeable(s.db, low, high, PublishedNames(images), preferred)
  }

  /** What is held after a launch: what was, and what was launched. */
  lemma HeldByLaunched(s: World, w: World, rt: Runtime)
    requires IdsIssued(s) && Launched(s, w, rt)
    ensures forall p | p in HeldPorts(w) :: p in HeldPorts(s) || exists n :: n in rt.ports && rt.ports[n] == p
  {
    hide FitsRuntime;
    forall c, n | c in w.running && c in w.containers && n in w.containers[c].names && Holds(w, c, n)
      ensures HeldPort(w, c, n) in HeldPorts(s) || exists k :: k in rt.ports && rt.ports[k] == HeldPort(w, c, n)
    {
      if c in rt.containers {
        assert AsRecorded(w, rt, c);
      } else {
        assert c in s.running && c in s.containers;
        assert Holds(s, c, n) && HeldPort(s, c, n) == HeldPort(w, c, n);
      }
    }
  }

  /** The ports asked for are those of `binds`, chosen for one image. */
  ghost predicate Selected(db: Db, low: nat, high: nat, names: set<string>, preferred: map<string, nat>, binds: map<string, nat>) {
    && (forall n :: n in binds <==> n in names && (n in preferred || low != 0))
    && (forall n | n in binds && n in preferred :: binds[n] == preferred[n])
    && (forall n | n in binds && n !in preferred :: low <= binds[n] <= high && binds[n] !in UsedPorts(db))
  }

  lemma SelectedIsPlaced(db: Db, low: nat, high: nat, all: set<string>, names: set<string>, preferred: map<string, nat>, binds: map<string, nat>)
    requires Keepable(db, preferred) && Placeable(db, low, high, all, preferred) && names <= all
    requires Selected(db, low, high, names, preferred, binds)
    ensures WellPlaced(db, low, high, preferred, binds)
  {
    hide UsedPorts, Placeable, SparePorts;
    forall n | n in binds && n !in preferred ensures binds[n] in SparePorts(db, low, high) {
      DrawnIsUnused(db, low, high, all, names, preferred, binds, n);
    }
    forall n, k | n in binds && k in binds && n != k
      ensures binds[n] != binds[k]
    {
      if n !in preferred && k !in preferred { OneNewName(db, low, high, all, preferred, n, k); }
    }
  }

  lemma DrawnIsUnused(db: Db, low: nat, high: nat, all: set<string>, names: set<string>, preferred: map<string, nat>, binds: map<string, nat>, n: string)
    requires Placeable(db, low, high, all, preferred) && names <= all && Selected(db, low, high, names, preferred, binds)
    requires n in binds && n !in preferred
    ensures binds[n] in SparePorts(db, low, high)
  {
    hide UsedPorts;
    assert n in NewNames(all, preferred);
  }

  /** No port that is asked for is among those of the containers before. */
  lemma PlacedApart(db: Db, low: nat, high: nat, all: set<string>, names: set<string>, preferred: map<string, nat>, ports: map<string, nat>, binds: map<string, nat>)
    requires Keepable(db, preferred) && Placeable(db, low, high, all, preferred)
    requires names <= all && ports.Keys <= all && ports.Keys !! names
    requires WellPlaced(db, low, high, preferred, ports) && Selected(db, low, high, names, preferred, binds)
    ensures forall n, k | n in ports && k in binds :: ports[n] != binds[k]
  {
    hide UsedPorts, Placeable;
    forall n, k | n in ports && k in binds
      ensures ports[n] != binds[k]
    {
      if n !in preferred && k !in preferred { OneNewName(db, low, high, all, preferred, n, k); }
    }
  }

  lemma PlacesOne(s: World, w: World, rt: Runtime, low: nat, high: nat, all: set<string>, names: set<string>, preferred: map<string, nat>, binds: map<string, nat>)
    requires IdsIssued(s) && Launched(s, w, rt) && Keepable(s.db, preferred) && Placeable(s.db, low, high, all, preferred)
    requires forall p | p in HeldPorts(s) :: p in UsedPorts(s.db) && forall n | n in preferred :: preferred[n] != p
    requires WellPlaced(s.db, low, high, preferred, rt.ports) && Selected(s.db, low, high, names, preferred, binds)
    requires names <= all && rt.ports.Keys <= all && rt.ports.Keys !! names
    ensures BindsFree(w, binds) && |names - binds.Keys| <= |LeftPorts(w)|
  {
    hide Launched, Placeable, Selected, UsedPorts, HeldPorts;
    HeldByLaunched(s, w, rt);
    SelectedIsPlaced(s.db, low, high, all, names, preferred, binds);
    PlacedApart(s.db, low, high, all, names, preferred, rt.ports, binds);
    forall n | n in binds
      ensures binds[n] !in HeldPorts(w)
    {
      KeptOrUnused(s.db, low, high, preferred, binds, n);
    }
    LeavesRoom(s, w, rt, low, high, all, names, preferred, binds);
  }

  lemma KeptOrUnused(db: Db, low: nat, high: nat, preferred: map<string, nat>, ports: map<string, nat>, n: string)
    requires WellPlaced(db, low, high, preferred, ports) && n in ports
    ensures (n in preferred && ports[n] == preferred[n]) || ports[n] !in UsedPorts(db)
  {
  }

  lemma LeavesRoom(s: World, w: World, rt: Runtime, low: nat, high: nat, all: set<string>, names: set<string>, preferred: map<string, nat>, binds: map<string, nat>)
    requires Launched(s, w, rt) && Keepable(s.db, preferred) && Placeable(s.db, low, high, all, preferred)
    requires forall p | p in HeldPorts(s) :: p in UsedPorts(s.db)
    requires forall p | p in HeldPorts(w) :: p in HeldPorts(s) || exists n :: n in rt.ports && rt.ports[n] == p
    requires WellPlaced(s.db, low, high, preferred, rt.ports) && Selected(s.db, low, high, names, preferred, binds)
    requires names <= all && rt.ports.Keys <= all && rt.ports.Keys !! names
    ensures |names - binds.Keys| <= |LeftPorts(w)|
  {
    hide UsedPorts, HeldPorts, Launched, Keepable, Placeable, WellPlaced;
    if low != 0 {
      assert names - binds.Keys == {};
    } else {
      assert names - binds.Keys == names - preferred.Keys;
      UnusedIsLeft(s, w, rt, high, preferred);
      EnoughUnused(s.db, low, high, all, preferred);
      RoomForNext(SparePorts(s.db, 0, high), LeftPorts(w), all, preferred, rt.ports, names);
    }
  }

  lemma EnoughUnused(db: Db, low: nat, high: nat, all: set<string>, preferred: map<string, nat>)
    requires Placeable(db, low, high, all, preferred)
    ensures |NewNames(all, preferred)| <= |SparePorts(db, low, high)|
  {
  }

  lemma UnusedIsLeft(s: World, w: World, rt: Runtime, high: nat, preferred: map<string, nat>)
    requires Launched(s, w, rt) && Keepable(s.db, preferred) && WellPlaced(s.db, 0, high, preferred, rt.ports)
    requires forall p | p in HeldPorts(s) :: p in UsedPorts(s.db)
    requires forall p | p in HeldPorts(w) :: p in HeldPorts(s) || exists n :: n in rt.ports && rt.ports[n] == p
    ensures SparePorts(s.db, 0, high) - NewPorts(preferred, rt.ports) <= LeftPorts(w)
  {
    hide UsedPorts, HeldPorts, Launched;
    SameUsed(s, w, rt);
    forall p, n | p in SparePorts(s.db, 0, high) - NewPorts(preferred, rt.ports) && n in rt.ports
      ensures rt.ports[n] != p
    {
      KeptOrUnused(s.db, 0, high, preferred, rt.ports, n);
    }
  }

  lemma SameUsed(s: World, w: World, rt: Runtime)
    requires Launched(s, w, rt)
    ensures UsedPorts(w.db) == UsedPorts(s.db) && w.tags == s.tags
    ensures Constraints(s.db) ==> Constraints(w.db)
  {
    hide FitsRuntime, AsRecorded, Constraints;
    assert w.db == s.db.(retired := w.db.retired);
    RetiredIsUnconstrained(s.db, w.db.retired);
  }

  /** What Docker reports of it goes with what the instance has so far. */
  lemma PlacedOne(s: World, w: World, rt: Runtime, low: nat, high: nat, all: set<string>, names: set<string>, preferred: map<string, nat>, binds: map<string, nat>,
                  ports: map<string, nat>, reported: map<string, nat>)
    requires Launched(s, w, rt) && Keepable(s.db, preferred) && Placeable(s.db, low, high, all, preferred)
    requires WellPlaced(s.db, low, high, preferred, rt.ports) && Selected(s.db, low, high, names, preferred, binds)
    requires names <= all && rt.ports.Keys <= all && rt.ports.Keys !! names
    requires ReportedPorts(names, binds, ports, reported) && PickedFrom(LeftPorts(w), ports) && AllHeld(w, rt)
    ensures WellPlaced(s.db, low, high, preferred, rt.ports + reported)
  {
    hide UsedPorts, HeldPorts, Launched, Keepable, Placeable, WellPlaced, Selected, ReportedPorts, AllHeld;
    ReportedIsPlaced(s, w, rt, low, high, all, names, preferred, binds, ports, reported);
    ReportedApart(s, w, rt, low, high, all, names, preferred, binds, ports, reported);
    PortsPlaced(s.db, low, high, preferred, rt.ports, reported) by { ReportedNames(names, binds, ports, reported); }
  }

  lemma ReportedNames(names: set<string>, binds: map<string, nat>, ports: map<string, nat>, reported: map<string, nat>)
    requires ReportedPorts(names, binds, ports, reported)
    ensures reported.Keys == names
    ensures forall n | n in reported :: if n in binds then reported[n] == binds[n] else n in ports && reported[n] == ports[n]
  {
  }

  lemma ReportedIsPlaced(s: World, w: World, rt: Runtime, low: nat, high: nat, all: set<string>, names: set<string>, preferred: map<string, nat>,
                         binds: map<string, nat>, ports: map<string, nat>, reported: map<string, nat>)
    requires Launched(s, w, rt) && Keepable(s.db, preferred) && Placeable(s.db, low, high, all, preferred) && names <= all
    requires Selected(s.db, low, high, names, preferred, binds)
    requires ReportedPorts(names, binds, ports, reported) && PickedFrom(LeftPorts(w), ports)
    ensures WellPlaced(s.db, low, high, preferred, reported)
  {
    hide UsedPorts, HeldPorts, Launched, Placeable, ReportedPorts, Keepable, Different;
    SelectedIsPlaced(s.db, low, high, all, names, preferred, binds);
    ReportedNames(names, binds, ports, reported);
    SameUsed(s, w, rt);
    forall n | n in reported && n !in binds ensures n !in preferred && low == 0 && reported[n] in SparePorts(s.db, low, high) { }
    ReportedDiffer(s, w, rt, low, high, all, names, preferred, binds, ports, reported);
  }

  lemma ReportedDiffer(s: World, w: World, rt: Runtime, low: nat, high: nat, all: set<string>, names: set<string>, preferred: map<string, nat>,
                       binds: map<string, nat>, ports: map<string, nat>, reported: map<string, nat>)
    requires Launched(s, w, rt) && Keepable(s.db, preferred) && Placeable(s.db, low, high, all, preferred) && names <= all
    requires Selected(s.db, low, high, names, preferred, binds)
    requires ReportedPorts(names, binds, ports, reported) && PickedFrom(LeftPorts(w), ports)
    ensures Different(reported)
  {
    hide UsedPorts, HeldPorts, Launched, Placeable, ReportedPorts;
    SelectedIsPlaced(s.db, low, high, all, names, preferred, binds);
    ReportedNames(names, binds, ports, reported);
    SameUsed(s, w, rt);
    forall n, k | n in reported && k in reported && n != k
      ensures reported[n] != reported[k]
    {
      if n in binds && k !in binds { KeptOrUnused(s.db, low, high, preferred, binds, n); }
      if n !in binds && k in binds { KeptOrUnused(s.db, low, high, preferred, binds, k); }
    }
  }

  lemma ReportedApart(s: World, w: World, rt: Runtime, low: nat, high: nat, all: set<string>, names: set<string>, preferred: map<string, nat>,
                      binds: map<string, nat>, ports: map<string, nat>, reported: map<string, nat>)
    requires Keepable(s.db, preferred) && Placeable(s.db, low, high, all, preferred)
    requires WellPlaced(s.db, low, high, preferred, rt.ports) && Selected(s.db, low, high, names, preferred, binds)
    requires names <= all && rt.ports.Keys <= all && rt.ports.Keys !! names
    requires ReportedPorts(names, binds, ports, reported) && PickedFrom(LeftPorts(w), ports) && AllHeld(w, rt)
    ensures forall n, k | n in rt.ports && k in reported :: rt.ports[n] != reported[k]
  {
    hide UsedPorts, HeldPorts, Keepable, Placeable, WellPlaced, Selected, ReportedPorts;
    PlacedApart(s.db, low, high, all, names, preferred, rt.ports, binds);
    ReportedNames(names, binds, ports, reported);
  }

  /** All ports of the instance so far are held. */
  ghost predicate AllHeld(w: World, rt: Runtime) {
    forall n | n in rt.ports :: rt.ports[n] in HeldPorts(w)
  }

  lemma AllHeldOn(s: World, w: World, rt: Runtime, new_: Container, ports: map<string, nat>, reported: map<string, nat>)
    requires IdsIssued(w) && AllHeld(w, rt) && ReportedPorts(new_.names, new_.binds, ports, reported)
    ensures AllHeld(WithContainer(w, new_, ports), rt.(ports := rt.ports + reported))
  {
    var d := WithContainer(w, new_, ports);
    forall c, n | c in w.running && c in w.containers && n in w.containers[c].names && Holds(w, c, n)
      ensures HeldPort(w, c, n) in HeldPorts(d)
    {
      assert c != w.nextId && Holds(d, c, n) && HeldPort(d, c, n) == HeldPort(w, c, n);
    }
    forall n | n in reported
      ensures reported[n] in HeldPorts(d)
    {
      assert Holds(d, w.nextId, n) && HeldPort(d, w.nextId, n) == reported[n];
    }
  }

  lemma NothingHeld(w: World)
    ensures AllHeld(w, Runtime(map[], {}))
  {
  }

  lemma SelectedParts(db: Db, low: nat, high: nat, names: set<string>, preferred: map<string, nat>, binds: map<string, nat>)
    requires forall n :: n in binds <==> n in names && (n in preferred || low != 0)
    requires forall n | n in binds && n in preferred :: binds[n] == preferred[n]
    requires forall n | n in binds && n !in preferred :: low <= binds[n] <= high && binds[n] !in UsedPorts(db)
    ensures Selected(db, low, high, names, preferred, binds)
  {
  }

  lemma NamesAmong(images: seq<HostImage>, k: nat, ports: map<string, nat>)
    requires k < |images| && images[k].host != BUILDER && PublishesNames(ports, images, k)
    ensures images[k].ports <= PublishedNames(images) && ports.Keys <= PublishedNames(images)
  {
    forall n | n in ports ensures n in PublishedNames(images) {
      var a: nat :| a < k && Runnable(images, a) && n in images[a].ports;
    }
  }

  lemma SureSelects(m: Manager, s: World, rt: Runtime, challenge: ChallengeId, b: BuildId, images: seq<HostImage>, k: nat, known: set<string>, preferred: map<string, nat>)
    requires k < |images| && images[k].host != BUILDER && Launched(s, m.world, rt) && PublishesNames(rt.ports, images, k)
    requires Sure(s, m.portLow, m.portHigh, challenge, b, images, known, preferred)
    ensures images[k].ports <= known && forall n | n in images[k].ports :: !Unselectable(m, n, preferred)
  {
    hide UsedPorts, Launched, PublishedNames, PublishesNames, Constraints;
    assert Runnable(images, k);
    NamesAmong(images, k, rt.ports);
    SameUsed(s, m.world, rt);
    forall n | n in images[k].ports
      ensures !Unselectable(m, n, preferred)
    {
      if n !in preferred && m.portLow != 0 {
        assert n in NewNames(PublishedNames(images), preferred);
        SomePort(s.db, m.portLow, m.portHigh, NewNames(PublishedNames(images), preferred));
      }
    }
  }

  lemma SomePort(db: Db, low: nat, high: nat, new_: set<string>)
    requires low != 0 && new_ != {} && |new_| <= |SparePorts(db, low, high)|
    ensures exists p: nat :: low <= p <= high && p !in UsedPorts(db)
  {
    hide UsedPorts;
    var p :| p in SparePorts(db, low, high);
  }

  lemma SureStarts(s: World, w: World, rt: Runtime, low: nat, high: nat, challenge: ChallengeId, b: BuildId, images: seq<HostImage>, k: nat, known: set<string>,
                   preferred: map<string, nat>, binds: map<string, nat>)
    requires k < |images| && images[k].host != BUILDER && IdsIssued(s) && Launched(s, w, rt) && PublishesNames(rt.ports, images, k)
    requires images[k].ports !! rt.ports.Keys
    requires Sure(s, low, high, challenge, b, images, known, preferred) && WellPlaced(s.db, low, high, preferred, rt.ports)
    requires Selected(w.db, low, high, images[k].ports, preferred, binds)
    ensures BindsFree(w, binds) && |images[k].ports - binds.Keys| <= |LeftPorts(w)|
    ensures Constraints(w.db) && TagName(challenge, b, images[k].host, "") in w.tags
  {
    hide UsedPorts, HeldPorts, Launched, PublishedNames, PublishesNames, Constraints, WellPlaced, Keepable, Placeable;
    assert Runnable(images, k);
    NamesAmong(images, k, rt.ports);
    SameUsed(s, w, rt);
    PlacesOne(s, w, rt, low, high, PublishedNames(images), images[k].ports, preferred, binds);
  }

  lemma SureStarted(s: World, w: World, rt: Runtime, low: nat, high: nat, challenge: ChallengeId, b: BuildId, images: seq<HostImage>, k: nat, known: set<string>,
                    preferred: map<string, nat>, binds: map<string, nat>, ports: map<string, nat>, reported: map<string, nat>)
    requires k < |images| && images[k].host != BUILDER && Launched(s, w, rt) && PublishesNames(rt.ports, images, k)
    requires images[k].ports !! rt.ports.Keys && AllHeld(w, rt)
    requires Sure(s, low, high, challenge, b, images, known, preferred) && WellPlaced(s.db, low, high, preferred, rt.ports)
    requires Selected(w.db, low, high, images[k].ports, preferred, binds)
    requires ReportedPorts(images[k].ports, binds, ports, reported) && PickedFrom(LeftPorts(w), ports)
    ensures WellPlaced(s.db, low, high, preferred, rt.ports + reported)
  {
    hide UsedPorts, HeldPorts, Launched, PublishedNames, PublishesNames, Constraints, WellPlaced, Keepable, Placeable, PickedFrom, ReportedPorts, AllHeld;
    NamesAmong(images, k, rt.ports);
    SameUsed(s, w, rt);
    PlacedOne(s, w, rt, low, high, PublishedNames(images), images[k].ports, preferred, binds, ports, reported);
  }

  /** The first `k` images have their containers. */
  ghost predicate LaunchedSoFar(s: World, w: World, rt: Runtime, low: nat, challenge: ChallengeId, b: BuildId, images: seq<HostImage>, k: nat,
                                order: seq<ContainerId>, preferred: map<string, nat>)
    requires k <= |images|
  {
    && Launched(s, w, rt) && IdsIssued(w) && AllHeld(w, rt)
    && PublishesNames(rt.ports, images, k) && KeepsPorts(preferred, rt.ports)
    && |rt.containers| == RuntimeImages(images[..k])
    && InOrder(s.tags, w.containers, rt.containers, challenge, b, images[..k], order)
    && BindsApart(w.containers, rt.containers) && (low != 0 ==> Pinned(w.containers, rt.containers))
  }

  lemma NoneLaunched(s: World, low: nat, challenge: ChallengeId, b: BuildId, images: seq<HostImage>, preferred: map<string, nat>)
    requires IdsIssued(s)
    ensures LaunchedSoFar(s, s, Runtime(map[], {}), low, challenge, b, images, 0, [], preferred)
  {
    hide Launched, IdsIssued, PublishesNames, KeepsPorts, InOrder, BindsApart, Pinned, AllHeld;
    LaunchedNone(s, {});
    NoBinds(s.containers);
    NothingHeld(s);
    assert images[..0] == [];
    NamesOfNothing(images, preferred);
    OrderedNone(s.tags, s.containers, challenge, b);
  }

  lemma BuilderSkipped(s: World, w: World, rt: Runtime, low: nat, challenge: ChallengeId, b: BuildId, images: seq<HostImage>, k: nat,
                       order: seq<ContainerId>, preferred: map<string, nat>)
    requires k < |images| && images[k].host == BUILDER && LaunchedSoFar(s, w, rt, low, challenge, b, images, k, order, preferred)
    ensures LaunchedSoFar(s, w, rt, low, challenge, b, images, k + 1, order + [0], preferred)
  {
    hide Launched, IdsIssued, PublishesNames, KeepsPorts, InOrder, BindsApart, Pinned, AllHeld, RuntimeImages;
    RuntimeImagesPrefix(images, k);
    NamesOfBuilder(rt.ports, images, k);
    OrderedBuilder(s.tags, w.containers, rt.containers, challenge, b, images, k, order);
  }

  lemma LaunchedNext(s: World, w: World, rt: Runtime, low: nat, challenge: ChallengeId, b: BuildId, images: seq<HostImage>, k: nat,
                     order: seq<ContainerId>, preferred: map<string, nat>, high: nat, new_: Container, ports: map<string, nat>, reported: map<string, nat>)
    requires k < |images| && images[k].host != BUILDER && DistinctImages(images) && IdsIssued(s)
    requires LaunchedSoFar(s, w, rt, low, challenge, b, images, k, order, preferred)
    requires TagName(challenge, b, images[k].host, "") in w.tags
    requires new_ == Container(w.tags[TagName(challenge, b, images[k].host, "")], images[k].ports, new_.binds)
    requires Selected(w.db, low, high, images[k].ports, preferred, new_.binds)
    requires ReportedPorts(new_.names, new_.binds, ports, reported)
    requires w.nextId in WithContainer(w, new_, ports).containers && PortsFree(WithContainer(w, new_, ports), w.nextId)
    ensures LaunchedSoFar(s, WithContainer(w, new_, ports), Runtime(rt.ports + reported, rt.containers + {w.nextId}), low,
                          challenge, b, images, k + 1, order + [w.nextId], preferred)
  {
    hide *;
    LaunchedParts(s, w, rt, low, challenge, b, images, k, order, preferred);
    RuntimeImagesPrefix(images, k);
    SelectedNames(w.db, low, high, images[k].ports, preferred, new_.binds);
    ReportParts(new_.names, new_.binds, ports, reported);
    NamesOfLaterImage(rt.ports, images, k, reported);
    PortsKeptOn(preferred, rt.ports, new_.names, new_.binds, reported);
    LaunchedOne(s, w, rt, new_, ports, reported);
    OrderedOn(s, w, rt, challenge, b, images, k, order, new_, ports);
    BindsApartOn(s, w, rt, new_, ports);
    PinnedOn(s, w, rt, new_, ports);
    AllHeldOn(s, w, rt, new_, ports, reported);
    var rt' := Runtime(rt.ports + reported, rt.containers + {w.nextId});
    LaunchedKeepsIds(s, WithContainer(w, new_, ports), rt');
    LaunchedMeans(s, WithContainer(w, new_, ports), rt', low, challenge, b, images, k + 1, order + [w.nextId], preferred);
  }

  lemma LaunchedParts(s: World, w: World, rt: Runtime, low: nat, challenge: ChallengeId, b: BuildId, images: seq<HostImage>, k: nat,
                      order: seq<ContainerId>, preferred: map<string, nat>)
    requires k <= |images| && LaunchedSoFar(s, w, rt, low, challenge, b, images, k, order, preferred)
    ensures Launched(s, w, rt) && IdsIssued(w) && AllHeld(w, rt) && PublishesNames(rt.ports, images, k) && KeepsPorts(preferred, rt.ports)
    ensures |rt.containers| == RuntimeImages(images[..k]) && InOrder(s.tags, w.containers, rt.containers, challenge, b, images[..k], order)
    ensures BindsApart(w.containers, rt.containers) && (low != 0 ==> Pinned(w.containers, rt.containers))
    ensures rt == Runtime(rt.ports, rt.containers)
  {
  }

  lemma LaunchedMeans(s: World, w: World, rt: Runtime, low: nat, challenge: ChallengeId, b: BuildId, images: seq<HostImage>, k: nat,
                      order: seq<ContainerId>, preferred: map<string, nat>)
    requires k <= |images|
    requires Launched(s, w, rt) && IdsIssued(w) && AllHeld(w, rt) && PublishesNames(rt.ports, images, k) && KeepsPorts(preferred, rt.ports)
    requires |rt.containers| == RuntimeImages(images[..k]) && InOrder(s.tags, w.containers, rt.containers, challenge, b, images[..k], order)
    requires BindsApart(w.containers, rt.containers) && (low != 0 ==> Pinned(w.containers, rt.containers))
    ensures LaunchedSoFar(s, w, rt, low, challenge, b, images, k, order, preferred)
  {
  }

  lemma SelectedNames(db: Db, low: nat, high: nat, names: set<string>, preferred: map<string, nat>, binds: map<string, nat>)
    requires Selected(db, low, high, names, preferred, binds)
    ensures binds.Keys <= names && (low != 0 ==> names <= binds.Keys)
    ensures forall n | n in names && n in preferred :: n in binds && binds[n] == preferred[n]
  {
  }

  /** The step for one image, after those before it. */
  method LaunchImage(m: Manager, challenge: ChallengeId, b: BuildId, images: seq<HostImage>, k: nat, known: set<string>,
                     preferred: map<string, nat>, rt0: Runtime, ghost s: World, ghost order0: seq<ContainerId>)
    returns (ok: bool, rt: Runtime, ghost order: seq<ContainerId>)
    requires m.portLow == 0 || m.portLow <= m.portHigh
    requires k < |images| && images[k].host != BUILDER && DistinctImages(images) && IdsIssued(s)
    requires LaunchedSoFar(s, m.world, rt0, m.portLow, challenge, b, images, k, order0, preferred) && Starting(s, m.world, m.portLow, preferred)
    modifies m
    ensures GrownBy(s, m.world, rt.containers) && Starting(s, m.world, m.portLow, preferred)
    ensures ok ==> LaunchedSoFar(s, m.world, rt, m.portLow, challenge, b, images, k + 1, order, preferred)
    ensures
      var sure := Sure(s, m.portLow, m.portHigh, challenge, b, images, known, preferred) && WellPlaced(s.db, m.portLow, m.portHigh, preferred, rt0.ports);
      m.reliable && m.fortunate && sure ==> ok && WellPlaced(s.db, m.portLow, m.portHigh, preferred, rt.ports)
    ensures old(m.crashPoints) <= m.crashPoints
    ensures forall d | d in m.crashPoints :: d in old(m.crashPoints) || Starting(s, d, m.portLow, preferred)
  {
    hide *;
    ghost var w := m.world;
    ghost var sure := m.reliable && m.fortunate && Sure(s, m.portLow, m.portHigh, challenge, b, images, known, preferred)
      && WellPlaced(s.db, m.portLow, m.portHigh, preferred, rt0.ports);
    var image := images[k];
    rt, order := rt0, order0;
    LaunchedParts(s, w, rt, m.portLow, challenge, b, images, k, order, preferred);
    LaunchedIsGrown(s, w, rt);
    if sure { SureSelects(m, s, rt, challenge, b, images, k, known, preferred); }
    if !(image.ports <= known) {
      return false, rt, order;
    }
    var selected, binds;
    ghost var draws;
    selected, binds, draws := SelectHostPorts(m, image.ports, preferred);
    if !selected {
      return false, rt, order;
    }
    GrownOn(s, w, rt);
    LaterNames(rt.ports, images, k);
    SelectedParts(w.db, m.portLow, m.portHigh, image.ports, preferred, binds);
    StartingOn(s, w, rt, m.portLow, preferred, image.ports, binds);
    if sure { SureStarts(s, w, rt, m.portLow, m.portHigh, challenge, b, images, k, known, preferred, binds); }
    var tag := TagName(challenge, b, image.host, "");
    var reported, created;
    ghost var ports;
    reported, created, ports := StartContainer(m, tag, image.ports, binds);
    if reported.None? {
      return false, rt.(containers := rt.containers + created), order;
    }
    ghost var new_ := Container(w.tags[tag], image.ports, binds);
    LaunchedNext(s, w, rt, m.portLow, challenge, b, images, k, order, preferred, m.portHigh, new_, ports, reported.value);
    if sure { SureStarted(s, w, rt, m.portLow, m.portHigh, challenge, b, images, k, known, preferred, binds, ports, reported.value); }
    ok, order := true, order + [w.nextId];
    rt := Runtime(rt.ports + reported.value, rt.containers + created);
  }

  /** Starts one container per image, skipping the builder's. */
  method LaunchImages(m: Manager, challenge: ChallengeId, b: BuildId, images: seq<HostImage>,
                      known: set<string>, preferred: map<string, nat>)
    returns (ok: bool, rt: Runtime)
    requires m.portLow == 0 || m.portLow <= m.portHigh
    requires IdsIssued(m.world) && DistinctImages(images)
    modifies m
    ensures GrownBy(old(m.world), m.world, rt.containers)
    ensures ok ==> Launched(old(m.world), m.world, rt) && |rt.containers| == RuntimeImages(images)
    ensures ok ==> Runs(old(m.world.tags), m.world.containers, challenge, b, images, preferred, rt)
    ensures ok ==> BindsApart(m.world.containers, rt.containers)
    ensures ok && m.portLow != 0 ==> Pinned(m.world.containers, rt.containers)
    ensures Starting(old(m.world), m.world, m.portLow, preferred)
    ensures m.reliable && m.fortunate && Sure(old(m.world), m.portLow, m.portHigh, challenge, b, images, known, preferred) ==>
      ok && WellPlaced(old(m.world).db, m.portLow, m.portHigh, preferred, rt.ports)
    ensures old(m.crashPoints) <= m.crashPoints
    ensures forall d | d in m.crashPoints ::
      d in old(m.crashPoints) || Starting(old(m.world), d, m.portLow, preferred)
  {
    hide *;
    ghost var s := m.world;
    ghost var sure := m.reliable && m.fortunate && Sure(s, m.portLow, m.portHigh, challenge, b, images, known, preferred);
    rt := Runtime(map[], {});
    ghost var order: seq<ContainerId> := [];
    NoneLaunched(s, m.portLow, challenge, b, images, preferred);
    NothingPlaced(s.db, m.portLow, m.portHigh, preferred);
    StartingNone(s, m.portLow, preferred);
    for k := 0 to |images|
      invariant LaunchedSoFar(s, m.world, rt, m.portLow, challenge, b, images, k, order, preferred)
      invariant Starting(s, m.world, m.portLow, preferred)
      invariant sure ==> WellPlaced(s.db, m.portLow, m.portHigh, preferred, rt.ports)
      invariant old(m.crashPoints) <= m.crashPoints
      invariant forall d | d in m.crashPoints ::
        d in old(m.crashPoints) || Starting(s, d, m.portLow, preferred)
    {
      if images[k].host == BUILDER {
        ghost var w := m.world;
        BuilderSkipped(s, w, rt, m.portLow, challenge, b, images, k, order, preferred);
        order := order + [0];
        continue;
      }
      ok, rt, order := LaunchImage(m, challenge, b, images, k, known, preferred, rt, s, order);
      if !ok {
        return;
      }
    }
    assert images[..|images|] == images;
    LaunchedParts(s, m.world, rt, m.portLow, challenge, b, images, |images|, order, preferred);
    LaunchedIsGrown(s, m.world, rt);
    RunsInOrder(s.tags, m.world.containers, challenge, b, images, preferred, rt, order);
    ok := true;
  }

  lemma ReportParts(names: set<string>, binds: map<string, nat>, ports: map<string, nat>, reported: map<string, nat>)
    requires ReportedPorts(names, binds, ports, reported)
    ensures reported.Keys == names && forall n | n in binds :: n in reported && reported[n] == binds[n]
  {
  }

  lemma PinnedOn(s: World, w: World, rt: Runtime, new_: Container, ports: map<string, nat>)
    requires IdsIssued(w) && Launched(s, w, rt)
    ensures Pinned(w.containers, rt.containers) && new_.names <= new_.binds.Keys ==>
      Pinned(WithContainer(w, new_, ports).containers, rt.containers + {w.nextId})
  {
  }

  lemma NamesOfNothing(images: seq<HostImage>, preferred: map<string, nat>)
    ensures PublishesNames(map[], images, 0) && KeepsPorts(preferred, map[])
  {
  }

  lemma RunsInOrder(tags: map<TagName, Image>, containers: map<ContainerId, Container>, challenge: ChallengeId, b: BuildId,
                    images: seq<HostImage>, preferred: map<string, nat>, rt: Runtime, order: seq<ContainerId>)
    requires InOrder(tags, containers, rt.containers, challenge, b, images, order)
    requires PublishesNames(rt.ports, images, |images|) && KeepsPorts(preferred, rt.ports)
    ensures Runs(tags, containers, challenge, b, images, preferred, rt)
  {
  }

  /** `d` is `s` after new containers were launched and handed to instance `i` as `rt`. */
  ghost predicate Deployed(s: World, d: World, i: InstanceId, rt: Runtime) {
    && i in s.db.instances
    && d.db == ReplaceRuntime(s.db, i, rt)
    && Launched(s, d.(db := s.db.(retired := s.db.retired + rt.containers)), rt)
  }

  lemma DeployedByReplace(s: World, w: World, i: InstanceId, rt: Runtime)
    requires IdsIssued(s) && Launched(s, w, rt) && i in s.db.instances
    ensures i in w.db.instances && w.db.instances == s.db.instances && w.containers.Keys >= rt.containers
    ensures w == s.(db := s.db.(retired := s.db.retired + rt.containers), containers := w.containers,
                    running := w.running, picked := w.picked, nextId := w.nextId)
    ensures ReplaceRuntime(w.db, i, rt) == ReplaceRuntime(s.db, i, rt)
    ensures Deployed(s, w.(db := ReplaceRuntime(w.db, i, rt)), i, rt)
  {
    hide FitsRuntime, AsRecorded;
    assert w.db.retired == s.db.retired + rt.containers;
    assert w.db.retired - rt.containers == s.db.retired == s.db.retired - rt.containers;
    assert w.(db := ReplaceRuntime(w.db, i, rt)).(db := s.db.(retired := s.db.retired + rt.containers)) == w;
  }

  /** Reaping what was grown leaves at most what was grown, and nothing once all of it is gone. */
  lemma GrownThenReaped(s: World, w: World, ids: set<ContainerId>)
    requires IdsIssued(s) && GrownBy(s, w, ids)
    ensures forall d :: Reaped(w, d, ids) ==> GrownBy(s, d, ids)
    ensures forall d :: Reaped(w, d, ids) && ids !! d.containers.Keys && ids !! d.db.retired ==>
      d == s.(nextId := d.nextId) && s.nextId <= d.nextId
  {
    forall d | Reaped(w, d, ids)
      ensures GrownBy(s, d, ids)
      ensures ids !! d.containers.Keys && ids !! d.db.retired ==> d == s.(nextId := d.nextId) && s.nextId <= d.nextId
    {
      ReapedKeeps(s, w, d, ids);
      if ids !! d.containers.Keys && ids !! d.db.retired {
        ReapedBack(s, w, d, ids);
      }
    }
  }

  lemma ReapedKeeps(s: World, w: World, d: World, ids: set<ContainerId>)
    requires IdsIssued(s) && GrownBy(s, w, ids) && Reaped(w, d, ids)
    ensures GrownBy(s, d, ids)
  {
  }

  lemma ReapedBack(s: World, w: World, d: World, ids: set<ContainerId>)
    requires IdsIssued(s) && GrownBy(s, w, ids) && Reaped(w, d, ids)
    requires ids !! d.containers.Keys && ids !! d.db.retired
    ensures d == s.(nextId := d.nextId) && s.nextId <= d.nextId
  {
    assert d.containers == s.containers;
    assert d.db.retired == s.db.retired;
    assert d.running == s.running;
    assert d.picked == s.picked;
  }

  /**
   Starts the containers of instance `i` and records them.  When it fails, what it created is
   still there: the error that its deferred clean-up looks at is not the one it returns with,
   so the port lock is given back while the containers may hold ports.
   */
  method StartContainers(m: Manager, i: InstanceId, build: Build, b: BuildId, known: set<string>,
                         persist: bool, preferred: map<string, nat>)
    returns (ok: bool, rt: Runtime)
    requires m.portLow == 0 || m.portLow <= m.portHigh
    requires IdsIssued(m.world) && DistinctImages(build.output.images)
    requires i in m.world.db.instances
    requires persist ==> m.world.db.instances[i].runtime == NOTHING
    modifies m
    ensures ok ==> Deployed(old(m.world), m.world, i, rt) && Constraints(m.world.db)
    ensures ok ==> |rt.containers| == RuntimeImages(build.output.images)
    ensures ok ==> Runs(old(m.world.tags), m.world.containers, build.challenge, b, build.output.images, preferred, rt)
    ensures ok ==> BindsApart(m.world.containers, rt.containers)
    ensures ok && m.portLow != 0 ==> Pinned(m.world.containers, rt.containers)
    ensures !ok ==> GrownBy(old(m.world), m.world, rt.containers)
    ensures m.portLow != 0 ==> Allocated(old(m.world), m.world, preferred)
    ensures
      var sure := preferred == old(m.world.db.instances[i].runtime.ports)
        && Sure(old(m.world), m.portLow, m.portHigh, build.challenge, b, build.output.images, known, preferred);
      m.reliable && m.fortunate && sure ==> ok
    ensures old(m.crashPoints) <= m.crashPoints
    ensures forall d | d in m.crashPoints ::
      d in old(m.crashPoints) || Grown(old(m.world), d) || (ok && d == m.world)
    ensures m.portLow != 0 ==> forall d | d in m.crashPoints :: d in old(m.crashPoints) || Allocated(old(m.world), d, preferred)
  {
    hide *;
    ghost var s := m.world;
    rt := Runtime(map[], {});
    GrowNone(s);
    StartingNone(s, m.portLow, preferred);
    StartingMeans(s, m.portLow, preferred);
    var read := m.Query();
    if !read {
      return false, rt;
    }
    if known != {} {
      var locked := m.Outside();
      if !locked {
        return false, rt;
      }
    }
    ok, rt := LaunchImages(m, build.challenge, b, build.output.images, known, preferred);
    ghost var w := m.world;
    GrownByIsGrown(s, rt.containers);
    if m.portLow != 0 { AllocatedByReplace(s, w, preferred); }
    if ok {
      DeployedByReplace(s, w, i, rt);
      AddIsReplaceIn(w.db, i, rt);
      ghost var placed := preferred == s.db.instances[i].runtime.ports && WellPlaced(s.db, m.portLow, m.portHigh, preferred, rt.ports);
      if placed && Sure(s, m.portLow, m.portHigh, build.challenge, b, build.output.images, known, preferred) {
        SureParts(s, m.portLow, m.portHigh, build.challenge, b, build.output.images, known, preferred);
        PlacedFits(s, w, i, rt, m.portLow, m.portHigh);
      }
      if persist {
        ok := FinalizeInstance(m, i, rt);
      } else {
        ok := ReplaceInstanceRuntimeMetadata(m, i, rt);
      }
    }
  }

  lemma SureParts(s: World, low: nat, high: nat, challenge: ChallengeId, b: BuildId, images: seq<HostImage>, known: set<string>, preferred: map<string, nat>)
    requires Sure(s, low, high, challenge, b, images, known, preferred)
    ensures Constraints(s.db) && Keepable(s.db, preferred)
  {
  }

  /** What is well placed the unique indexes accept. */
  lemma PlacedFits(s: World, w: World, i: InstanceId, rt: Runtime, low: nat, high: nat)
    requires IdsIssued(s) && Launched(s, w, rt) && Constraints(s.db) && i in s.db.instances
    requires Keepable(s.db, s.db.instances[i].runtime.ports) && WellPlaced(s.db, low, high, s.db.instances[i].runtime.ports, rt.ports)
    ensures i in w.db.instances && Constraints(ReplaceRuntime(w.db, i, rt))
  {
    hide FitsRuntime, AsRecorded, UniquePorts, PortsInRange, UniqueContainers, UniqueBuilds, Recordable, OneImagePerHost, Keepable, WellPlaced;
    assert w.db == s.db.(retired := w.db.retired);
    var d := ReplaceRuntime(w.db, i, rt);
    assert d.instances == s.db.instances[i := s.db.instances[i].(runtime := rt)];
    NewIdsUnique(s, w, i, rt);
    PlacedUnique(s.db, i, rt, low, high);
  }

  lemma NewIdsUnique(s: World, w: World, i: InstanceId, rt: Runtime)
    requires IdsIssued(s) && GrownBy(s, w, rt.containers) && UniqueContainers(s.db.instances) && i in s.db.instances
    ensures UniqueContainers(s.db.instances[i := s.db.instances[i].(runtime := rt)])
  {
    hide Grown;
  }

  lemma PlacedUnique(db: Db, i: InstanceId, rt: Runtime, low: nat, high: nat)
    requires UniquePorts(db.instances) && PortsInRange(db.instances) && i in db.instances
    requires Keepable(db, db.instances[i].runtime.ports) && WellPlaced(db, low, high, db.instances[i].runtime.ports, rt.ports)
    ensures
      var d := db.instances[i := db.instances[i].(runtime := rt)];
      UniquePorts(d) && PortsInRange(d)
  {
    hide UniquePorts, PortsInRange;
    forall n | n in rt.ports
      ensures 0 < rt.ports[n] < 65536 && NobodyElses(db.instances, i, rt.ports[n])
    {
      hide WellPlaced;
      KeptOrUnused(db, low, high, db.instances[i].runtime.ports, rt.ports, n);
      OthersApart(db, i, rt.ports[n], rt.ports, n, low, high);
    }
    ApartUnique(db.instances, i, rt);
  }

  ghost predicate NobodyElses(instances: map<InstanceId, Instance>, i: InstanceId, p: nat) {
    forall j, k | j in instances && j != i && k in instances[j].runtime.ports :: instances[j].runtime.ports[k] != p
  }

  /** What an instance keeps is its own, and what it gets was nobody's. */
  lemma OthersApart(db: Db, i: InstanceId, p: nat, ports: map<string, nat>, n: string, low: nat, high: nat)
    requires UniquePorts(db.instances) && i in db.instances && n in ports && p == ports[n]
    requires WellPlaced(db, low, high, db.instances[i].runtime.ports, ports)
    ensures NobodyElses(db.instances, i, p)
  {
    var had := db.instances[i].runtime.ports;
    forall j, k | j in db.instances && j != i && k in db.instances[j].runtime.ports
      ensures db.instances[j].runtime.ports[k] != p
    {
      if n in had { assert p == had[n]; } else { assert p in SparePorts(db, low, high) && db.instances[j].runtime.ports[k] in UsedPorts(db); }
    }
  }

  lemma ApartUnique(instances: map<InstanceId, Instance>, i: InstanceId, rt: Runtime)
    requires UniquePorts(instances) && PortsInRange(instances) && i in instances && Different(rt.ports)
    requires forall n | n in rt.ports :: 0 < rt.ports[n] < 65536 && NobodyElses(instances, i, rt.ports[n])
    ensures UniquePorts(instances[i := instances[i].(runtime := rt)]) && PortsInRange(instances[i := instances[i].(runtime := rt)])
  {
    hide NobodyElses;
    var d := instances[i := instances[i].(runtime := rt)];
    forall a, b, n, k | a in d && b in d && n in d[a].runtime.ports && k in d[b].runtime.ports && d[a].runtime.ports[n] == d[b].runtime.ports[k]
      ensures a == b && n == k
    {
      if a == i && b != i { ElsesApart(instances, i, rt.ports[n], b, k); }
      if b == i && a != i { ElsesApart(instances, i, rt.ports[k], a, n); }
    }
  }

  lemma ElsesApart(instances: map<InstanceId, Instance>, i: InstanceId, p: nat, j: InstanceId, k: string)
    requires NobodyElses(instances, i, p) && j in instances && j != i && k in instances[j].runtime.ports
    ensures instances[j].runtime.ports[k] != p
  {
  }

  lemma StartingMeans(s: World, low: nat, preferred: map<string, nat>)
    ensures forall d :: Starting(s, d, low, preferred) ==> Grown(s, d) && (low != 0 ==> Allocated(s, d, preferred))
  {
  }

  /** The tables do not matter for what Docker was asked. */
  lemma AllocatedByReplace(s: World, w: World, preferred: map<string, nat>)
    requires Allocated(s, w, preferred)
    ensures forall next :: Allocated(s, w.(db := next), preferred)
  {
    forall next, c | c in w.containers && PortsFree(w, c)
      ensures PortsFree(w.(db := next), c)
    {
      assert forall r, k | r in w.containers && Holds(w, r, k) :: HeldPort(w.(db := next), r, k) == HeldPort(w, r, k);
    }
  }

  lemma AddIsReplaceIn(db: Db, i: InstanceId, rt: Runtime)
    requires i in db.instances
    ensures db.instances[i].runtime == NOTHING ==> AddRuntime(db, i, rt) == ReplaceRuntime(db, i, rt)
  {
    if db.instances[i].runtime == NOTHING { AddIsReplace(db, i, rt); }
  }
}
