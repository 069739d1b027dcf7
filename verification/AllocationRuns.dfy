/**
 What starting, stopping and removing containers does to the host ports, as runs of the
 allocation protocol (docker.go).
 */
module AllocationRuns {
  import opened Store
  import opened Instances
  import opened Ports
  import opened Containers
  import opened Safety
  import P = PortAllocation

  ghost function HeldPorts(w: World, c: ContainerId): set<nat>
    requires c in w.containers
  {
    set n | n in w.containers[c].names && Holds(w, c, n) :: HeldPort(w, c, n)
  }

  ghost function PortRows(db: Db): map<InstanceId, map<string, nat>> {
    map i | i in db.instances :: db.instances[i].runtime.ports
  }

  ghost function OpenPorts(w: World): set<nat> {
    set c, p | c in w.running && c in w.containers && Owned(w.db, c) && p in HeldPorts(w, c) :: p
  }

  /** What containers of no instance hold; `of` tells whose start made them. */
  ghost function StrayPorts(w: World, of: ContainerId -> InstanceId): set<P.Stray> {
    set c, p | c in w.running && c in w.containers && !Owned(w.db, c) && p in HeldPorts(w, c) :: P.Stray(of(c), p)
  }

  /** A world between two starts. */
  ghost function View(w: World, of: ContainerId -> InstanceId): P.State {
    P.State(None, StrayPorts(w, of), OpenPorts(w), PortRows(w.db))
  }

  // --------------------------------------------------------------- starting

  /** Where a start of instance `i` begins: its row is open, or its containers were paused. */
  ghost predicate CanStart(s: World, i: InstanceId, preferred: map<string, nat>) {
    && i in s.db.instances && preferred == s.db.instances[i].runtime.ports
    && UniquePorts(s.db.instances)
    && s.db.instances[i].runtime.containers !! s.running
    && (forall u, c | u in s.db.instances && c in s.db.instances[u].runtime.containers && c in s.running ::
          AsRecorded(s, s.db.instances[u].runtime, c))
  }

  /** The ports a start has come to use. */
  ghost function ChosenBy(s: World, d: World, preferred: map<string, nat>): map<string, nat>
    requires Allocated(s, d, preferred)
  {
    map c, n | c in d.running && c !in s.running && n in d.containers[c].names :: n := d.containers[c].binds[n]
  }

  lemma TakeIsEnabled(s: World, i: InstanceId, preferred: map<string, nat>, of: ContainerId -> InstanceId)
    requires CanStart(s, i, preferred)
    ensures P.Enabled(View(s, of), P.Take(i))
  {
    var ports := s.db.instances[i].runtime.ports;
    forall n, c | n in ports && c in s.running && c in s.containers && Owned(s.db, c)
      ensures ports[n] !in HeldPorts(s, c)
    {
      var u :| u in s.db.instances && c in s.db.instances[u].runtime.containers;
      assert AsRecorded(s, s.db.instances[u].runtime, c);
    }
  }

  lemma RowOf(s: World, of: ContainerId -> InstanceId, port: nat)
    ensures P.IsRecorded(View(s, of), port) ==> port in UsedPorts(s.db)
  {
  }

  /** Ports that a start may keep or select. */
  ghost predicate Allowed(a: P.State, i: InstanceId, ports: map<string, nat>) {
    forall n | n in ports :: if P.IsOld(a, i, n) then a.recorded[i][n] == ports[n] else !P.IsRecorded(a, ports[n])
  }

  lemma ChosenIsAllowed(s: World, d: World, i: InstanceId, preferred: map<string, nat>, of: ContainerId -> InstanceId)
    requires CanStart(s, i, preferred) && Allocated(s, d, preferred)
    ensures Allowed(View(s, of), i, ChosenBy(s, d, preferred))
  {
    hide PortsFree, P.IsRecorded;
    forall n | n in ChosenBy(s, d, preferred)
      ensures
        var port := ChosenBy(s, d, preferred)[n];
        if P.IsOld(View(s, of), i, n) then PortRows(s.db)[i][n] == port else !P.IsRecorded(View(s, of), port)
    {
      var c :| c in d.running && c !in s.running && n in d.containers[c].names;
      RowOf(s, of, d.containers[c].binds[n]);
    }
  }

  /** Kept and selected one after the other. */
  lemma {:induction false} ChoosesAll(a: P.State, t: P.Start, todo: map<string, nat>) returns (steps: seq<P.Step>)
    requires a.current == Some(t) && todo.Keys !! t.chosen.Keys && Allowed(a, t.inst, todo)
    ensures P.Leads(a, steps, a.(current := Some(t.(chosen := t.chosen + todo))))
    decreases |todo|
  {
    hide *;
    if todo == map[] {
      assert t.chosen + todo == t.chosen;
      P.LeadsNowhere(a);
      return [];
    }
    var n :| n in todo;
    var step, b := ChoosesOne(a, t, todo, n);
    var rest := ChoosesAll(b, b.current.value, todo - {n});
    steps := P.LeadsFirst(a, step, b, rest, a.(current := Some(t.(chosen := t.chosen + todo))));
  }

  lemma ChoosesOne(a: P.State, t: P.Start, todo: map<string, nat>, n: string) returns (step: P.Step, b: P.State)
    requires a.current == Some(t) && n in todo && todo.Keys !! t.chosen.Keys && Allowed(a, t.inst, todo)
    ensures P.Enabled(a, step) && P.Apply(a, step) == b && b.current.Some? && Allowed(b, t.inst, todo - {n})
    ensures
      var next := b.current.value;
      && b == a.(current := Some(next)) && next.inst == t.inst && (todo - {n}).Keys !! next.chosen.Keys && |todo - {n}| < |todo|
      && next.(chosen := next.chosen + (todo - {n})) == t.(chosen := t.chosen + todo)
  {
    step := if P.IsOld(a, t.inst, n) then P.Keep(n) else P.Select(n, todo[n]);
    b := a.(current := Some(P.Chosen(t, n, todo[n])));
    AllowedStays(a, t.inst, todo, b.current);
    assert b.current.value.chosen + (todo - {n}) == t.chosen + todo;
  }

  lemma AllowedStays(a: P.State, i: InstanceId, ports: map<string, nat>, current: Option<P.Start>)
    requires Allowed(a, i, ports)
    ensures Allowed(a.(current := current), i, ports)
  {
    hide P.IsRecorded;
    var b := a.(current := current);
    forall n | n in ports ensures P.IsRecorded(b, ports[n]) <==> P.IsRecorded(a, ports[n]) { P.SameRows(a, b, ports[n]); }
  }

  lemma NotYetHeld(s: World, d: World, preferred: map<string, nat>, of: ContainerId -> InstanceId, c: ContainerId, n: string)
    requires IdsIssued(s) && Grown(s, d) && Allocated(s, d, preferred)
    requires c in d.running && c !in s.running && n in d.containers[c].names
    ensures d.containers[c].binds[n] !in OpenPorts(s)
    ensures forall x | x in StrayPorts(s, of) :: x.port != d.containers[c].binds[n]
  {
    assert PortsFree(d, c);
    forall r, k | r in s.running && r in s.containers && k in s.containers[r].names && Holds(s, r, k)
      ensures HeldPort(s, r, k) != d.containers[c].binds[n]
    {
      assert Holds(d, r, k) && HeldPort(d, r, k) == HeldPort(s, r, k);
    }
  }

  lemma BindIsEnabled(s: World, d: World, i: InstanceId, preferred: map<string, nat>, of: ContainerId -> InstanceId)
    requires IdsIssued(s) && Grown(s, d) && Allocated(s, d, preferred)
    ensures P.Enabled(View(s, of).(current := Some(P.Start(i, ChosenBy(s, d, preferred), {}))), P.Bind)
  {
    hide IdsIssued, Grown, Allocated, ChosenBy, OpenPorts, StrayPorts, PortRows;
    var chosen := ChosenBy(s, d, preferred);
    var a := View(s, of).(current := Some(P.Start(i, chosen, {})));
    ChosenApart(s, d, preferred);
    forall n | n in chosen
      ensures !P.Held(a, chosen[n])
    {
      var c := ChosenFrom(s, d, preferred, n);
      NotYetHeld(s, d, preferred, of, c, n);
    }
  }

  lemma ChosenFrom(s: World, d: World, preferred: map<string, nat>, n: string) returns (c: ContainerId)
    requires Allocated(s, d, preferred) && n in ChosenBy(s, d, preferred)
    ensures c in d.running && c !in s.running && c in d.containers && n in d.containers[c].names && n in d.containers[c].binds
    ensures ChosenBy(s, d, preferred)[n] == d.containers[c].binds[n] && PortsFree(d, c)
  {
    hide PortsFree;
    c :| c in d.running && c !in s.running && n in d.containers[c].names;
  }

  lemma ChosenApart(s: World, d: World, preferred: map<string, nat>)
    requires Allocated(s, d, preferred)
    ensures
      var chosen := ChosenBy(s, d, preferred);
      forall n, k | n in chosen && k in chosen && n != k :: chosen[n] != chosen[k]
  {
    hide Allocated, ChosenBy;
    var chosen := ChosenBy(s, d, preferred);
    forall n, k | n in chosen && k in chosen && n != k
      ensures chosen[n] != chosen[k]
    {
      var c := ChosenFrom(s, d, preferred, n);
      var e := ChosenFrom(s, d, preferred, k);
      if c != e { assert Holds(d, e, k) && HeldPort(d, e, k) == chosen[k]; }
    }
  }

  /** A start up to the point where its containers run. */
  lemma Binding(s: World, d: World, i: InstanceId, preferred: map<string, nat>, of: ContainerId -> InstanceId) returns (steps: seq<P.Step>)
    requires IdsIssued(s) && CanStart(s, i, preferred) && Grown(s, d) && Allocated(s, d, preferred)
    ensures
      var chosen := ChosenBy(s, d, preferred);
      P.Leads(View(s, of), steps, View(s, of).(current := Some(P.Start(i, chosen, chosen.Keys))))
  {
    hide *;
    var a, chosen := View(s, of), ChosenBy(s, d, preferred);
    TakeIsEnabled(s, i, preferred, of);
    ChosenIsAllowed(s, d, i, preferred, of);
    BindIsEnabled(s, d, i, preferred, of);
    steps := BindingSteps(a, i, chosen);
  }

  lemma BindingSteps(a: P.State, i: InstanceId, chosen: map<string, nat>) returns (steps: seq<P.Step>)
    requires P.Enabled(a, P.Take(i))
    requires Allowed(a, i, chosen)
    requires P.Enabled(a.(current := Some(P.Start(i, chosen, {}))), P.Bind)
    ensures P.Leads(a, steps, a.(current := Some(P.Start(i, chosen, chosen.Keys))))
  {
    hide P.IsRecorded, P.HasRow, P.DockerBinds;
    var t := P.Start(i, map[], {});
    var b := a.(current := Some(t));
    assert P.Apply(a, P.Take(i)) == b;
    AllowedStays(a, i, chosen, Some(t));
    var rest := ChoosesAll(b, t, chosen);
    assert t.chosen + chosen == chosen;
    steps := [P.Take(i)] + rest;
    assert steps[1..] == rest;
    P.LeadsOn(a, steps, a.(current := Some(P.Start(i, chosen, {}))), P.Bind);
    steps := steps + [P.Bind];
  }

  /** A start that has failed, or died, leaves the ports it has bound behind, whether they were
      bound in the end or at any point before. */
  lemma FailedStartRuns(s: World, d: World, i: InstanceId, preferred: map<string, nat>, of: ContainerId -> InstanceId) returns (steps: seq<P.Step>)
    requires IdsIssued(s) && CanStart(s, i, preferred) && Grown(s, d) && Allocated(s, d, preferred)
    requires forall c | s.nextId <= c < d.nextId :: of(c) == i
    ensures P.Leads(View(s, of), steps, View(d, of))
  {
    hide *;
    steps := Binding(s, d, i, preferred, of);
    var chosen := ChosenBy(s, d, preferred);
    var a := View(s, of).(current := Some(P.Start(i, chosen, chosen.Keys)));
    GivenUp(s, d, i, preferred, of);
    P.LeadsOn(View(s, of), steps, a, P.GiveUp);
    steps := steps + [P.GiveUp];
  }

  lemma HeldStays(s: World, d: World, c: ContainerId)
    requires c in s.containers && c in d.containers && d.containers[c] == s.containers[c] && SameEntry(s.picked, d.picked, c)
    ensures HeldPorts(d, c) == HeldPorts(s, c)
  {
    assert forall n :: Holds(d, c, n) <==> Holds(s, c, n);
    assert forall n | Holds(s, c, n) :: HeldPort(d, c, n) == HeldPort(s, c, n);
  }

  lemma NewHolds(s: World, d: World, preferred: map<string, nat>, c: ContainerId)
    requires Allocated(s, d, preferred) && c in d.running && c !in s.running
    ensures HeldPorts(d, c) == set n | n in d.containers[c].names :: d.containers[c].binds[n]
  {
    hide PortsFree, UsedPorts;
    assert forall n | n in d.containers[c].names :: Holds(d, c, n) && HeldPort(d, c, n) == d.containers[c].binds[n];
  }

  /** The containers that ran before hold what they held, and the new ones what was chosen. */
  ghost predicate HoldsMore(s: World, d: World, chosen: map<string, nat>) {
    && s.running <= d.running && s.running <= s.containers.Keys && d.running <= d.containers.Keys
    && (forall c | c in s.running :: HeldPorts(d, c) == HeldPorts(s, c))
    && (forall c, p | c in d.running && c !in s.running && p in HeldPorts(d, c) :: exists n :: n in chosen && chosen[n] == p)
    && (forall n | n in chosen :: exists c :: c in d.running && c !in s.running && chosen[n] in HeldPorts(d, c))
    && (forall c | c in d.running && c !in s.running :: s.nextId <= c < d.nextId)
  }

  lemma StartHoldsMore(s: World, d: World, preferred: map<string, nat>)
    requires IdsIssued(s) && Grown(s, d) && Allocated(s, d, preferred)
    ensures HoldsMore(s, d, ChosenBy(s, d, preferred))
  {
    hide Allocated, ChosenBy, HeldPorts, Holds, HeldPort;
    var chosen := ChosenBy(s, d, preferred);
    forall c | c in s.running ensures HeldPorts(d, c) == HeldPorts(s, c) { HeldStays(s, d, c); }
    NewAreChosen(s, d, preferred);
    forall n | n in chosen
      ensures exists c :: c in d.running && c !in s.running && c in d.containers && chosen[n] in HeldPorts(d, c)
    {
      var c := ChosenFrom(s, d, preferred, n);
      NewHolds(s, d, preferred, c);
    }
  }

  lemma NewAreChosen(s: World, d: World, preferred: map<string, nat>)
    requires Allocated(s, d, preferred)
    ensures
      var chosen := ChosenBy(s, d, preferred);
      forall c, p | c in d.running && c !in s.running && c in d.containers && p in HeldPorts(d, c) :: exists n :: n in chosen && chosen[n] == p
  {
    hide PortsFree, HeldPorts;
    var chosen := ChosenBy(s, d, preferred);
    forall c, p | c in d.running && c !in s.running && p in HeldPorts(d, c)
      ensures exists n :: n in chosen && chosen[n] == p
    {
      NewHolds(s, d, preferred, c);
      var n :| n in d.containers[c].names && d.containers[c].binds[n] == p;
      assert n in chosen && chosen[n] == p;
    }
  }

  lemma GivenUp(s: World, d: World, i: InstanceId, preferred: map<string, nat>, of: ContainerId -> InstanceId)
    requires IdsIssued(s) && Grown(s, d) && Allocated(s, d, preferred)
    requires forall c | s.nextId <= c < d.nextId :: of(c) == i
    ensures
      var chosen := ChosenBy(s, d, preferred);
      var a := View(s, of).(current := Some(P.Start(i, chosen, chosen.Keys)));
      P.Enabled(a, P.GiveUp) && P.Apply(a, P.GiveUp) == View(d, of)
  {
    hide Allocated, ChosenBy, HoldsMore, OpenPorts, StrayPorts;
    var chosen := ChosenBy(s, d, preferred);
    StartHoldsMore(s, d, preferred);
    NothingNewOwned(s, d, chosen, of, i);
  }

  lemma NothingNewOwned(s: World, d: World, chosen: map<string, nat>, of: ContainerId -> InstanceId, i: InstanceId)
    requires IdsIssued(s) && Grown(s, d) && HoldsMore(s, d, chosen)
    requires forall c | s.nextId <= c < d.nextId :: of(c) == i
    ensures OpenPorts(d) == OpenPorts(s)
    ensures StrayPorts(d, of) == StrayPorts(s, of) + P.Strays(P.Start(i, chosen, chosen.Keys))
  {
    hide HeldPorts;
    assert forall c: ContainerId :: Owned(d.db, c) <==> Owned(s.db, c);
    assert forall c: ContainerId | Owned(s.db, c) :: c < s.nextId;
    var new_ := P.Strays(P.Start(i, chosen, chosen.Keys));
    forall x | x in new_ ensures x in StrayPorts(d, of) {
      var n :| n in chosen && x == P.Stray(i, chosen[n]);
      var c :| c in d.running && c !in s.running && chosen[n] in HeldPorts(d, c);
      assert of(c) == i;
    }
    forall x | x in StrayPorts(d, of) ensures x in StrayPorts(s, of) + new_ {
      var c :| c in d.running && c in d.containers && !Owned(d.db, c) && x.port in HeldPorts(d, c) && x == P.Stray(of(c), x.port);
      if c !in s.running {
        var n :| n in chosen && chosen[n] == x.port;
        assert x == P.Stray(i, chosen[n]);
      }
    }
  }

  /** Every port of the instance is held by one of its containers. */
  ghost predicate Published(d: World, rt: Runtime) {
    forall n | n in rt.ports :: exists c :: c in rt.containers && c in d.containers && n in d.containers[c].names
  }

  lemma RunsPublished(tags: map<TagName, Image>, s: World, d: World, i: InstanceId, challenge: ChallengeId, b: BuildId, images: seq<HostImage>,
                      preferred: map<string, nat>, rt: Runtime)
    requires Runs(tags, d.containers, challenge, b, images, preferred, rt) && Deployed(s, d, i, rt)
    ensures Published(d, rt)
  {
    hide RunsImages, PublishesNames, KeepsPorts, FitsRuntime, AsRecorded, GrownBy, ReplaceRuntime;
    var order := OrderOf(tags, d.containers, rt.containers, challenge, b, images);
    PublishedInOrder(tags, d, challenge, b, images, rt, order);
  }

  lemma PublishedInOrder(tags: map<TagName, Image>, d: World, challenge: ChallengeId, b: BuildId, images: seq<HostImage>, rt: Runtime, order: seq<ContainerId>)
    requires InOrder(tags, d.containers, rt.containers, challenge, b, images, order)
    requires PublishesNames(rt.ports, images, |images|) && rt.containers <= d.containers.Keys
    ensures Published(d, rt)
  {
    forall n | n in rt.ports
      ensures exists c :: c in rt.containers && c in d.containers && n in d.containers[c].names
    {
      var k: nat :| k < |images| && Runnable(images, k) && n in images[k].ports;
      assert order[k] in rt.containers && MadeFrom(tags, d.containers, order[k], TagName(challenge, b, images[k].host, ""), images[k].ports);
    }
  }

  /** A start that succeeds goes on to record exactly what it has bound. */
  lemma StartRuns(s: World, d: World, i: InstanceId, rt: Runtime, challenge: ChallengeId, b: BuildId, images: seq<HostImage>,
                  preferred: map<string, nat>, of: ContainerId -> InstanceId)
    returns (steps: seq<P.Step>)
    requires IdsIssued(s) && CanStart(s, i, preferred) && Deployed(s, d, i, rt) && Allocated(s, d, preferred)
    requires UniquePorts(d.db.instances) && Runs(s.tags, d.containers, challenge, b, images, preferred, rt)
    ensures P.Leads(View(s, of), steps, View(d, of))
  {
    hide *;
    RunsPublished(s.tags, s, d, i, challenge, b, images, preferred, rt);
    var w := Unrecorded(s, d, i, rt, preferred);
    steps := Binding(s, w, i, preferred, of);
    var a := View(s, of).(current := Some(P.Start(i, rt.ports, rt.ports.Keys)));
    RecordIsEnabled(s, d, i, rt, preferred, of);
    RecordLeads(s, d, i, rt, of, w, preferred);
    P.LeadsOn(View(s, of), steps, a, P.Record);
    steps := steps + [P.Record];
  }

  /** The world just before the rows of the instance are written. */
  lemma Unrecorded(s: World, d: World, i: InstanceId, rt: Runtime, preferred: map<string, nat>) returns (w: World)
    requires IdsIssued(s) && Deployed(s, d, i, rt) && Allocated(s, d, preferred) && Published(d, rt)
    ensures w == d.(db := s.db.(retired := s.db.retired + rt.containers))
    ensures Launched(s, w, rt) && Grown(s, w) && Allocated(s, w, preferred) && ChosenBy(s, w, preferred) == rt.ports
  {
    hide *;
    w := d.(db := s.db.(retired := s.db.retired + rt.containers));
    AllocatedByReplace(s, d, preferred);
    LaunchedInDeployed(s, d, i, rt, w);
    PublishedBefore(d, s.db.(retired := s.db.retired + rt.containers), rt);
    RecordedIsChosen(s, w, rt, preferred);
  }

  lemma PublishedBefore(d: World, tables: Db, rt: Runtime)
    requires Published(d, rt)
    ensures Published(d.(db := tables), rt)
  {
  }

  lemma LaunchedInDeployed(s: World, d: World, i: InstanceId, rt: Runtime, w: World)
    requires Deployed(s, d, i, rt) && w == d.(db := s.db.(retired := s.db.retired + rt.containers))
    ensures Launched(s, w, rt) && GrownBy(s, w, rt.containers) && Grown(s, w)
  {
    hide Grown, AsRecorded, FitsRuntime;
  }

  lemma RecordedIsChosen(s: World, w: World, rt: Runtime, preferred: map<string, nat>)
    requires IdsIssued(s) && Launched(s, w, rt) && Allocated(s, w, preferred) && Published(w, rt)
    ensures ChosenBy(s, w, preferred) == rt.ports
  {
    hide *;
    var chosen := ChosenBy(s, w, preferred);
    forall n | n in rt.ports
      ensures n in chosen
    {
      RecordedIsBound(s, w, rt, preferred, n);
    }
    forall n | n in chosen
      ensures n in rt.ports && rt.ports[n] == chosen[n]
    {
      var c := ChosenFrom(s, w, preferred, n);
      BoundIsRecorded(s, w, rt, c, n);
    }
  }

  lemma RecordedIsBound(s: World, w: World, rt: Runtime, preferred: map<string, nat>, n: string)
    requires IdsIssued(s) && Launched(s, w, rt) && Allocated(s, w, preferred) && Published(w, rt) && n in rt.ports
    ensures n in ChosenBy(s, w, preferred)
  {
    hide GrownBy, AsRecorded, FitsRuntime, PortsFree, ChosenPorts, IdsIssued;
    var c :| c in rt.containers && c in w.containers && n in w.containers[c].names;
    NewNeverRan(s, w, rt, c);
  }

  lemma BoundIsRecorded(s: World, w: World, rt: Runtime, c: ContainerId, n: string)
    requires Launched(s, w, rt) && c in w.running && c !in s.running && n in w.containers[c].binds
    ensures n in rt.ports && rt.ports[n] == w.containers[c].binds[n]
  {
    hide GrownBy, AsRecorded;
  }

  lemma NewNeverRan(s: World, w: World, rt: Runtime, c: ContainerId)
    requires IdsIssued(s) && GrownBy(s, w, rt.containers) && c in rt.containers
    ensures c !in s.running && c >= s.nextId
  {
  }

  lemma RecordIsEnabled(s: World, d: World, i: InstanceId, rt: Runtime, preferred: map<string, nat>, of: ContainerId -> InstanceId)
    requires CanStart(s, i, preferred) && Deployed(s, d, i, rt) && UniquePorts(d.db.instances)
    ensures P.Enabled(View(s, of).(current := Some(P.Start(i, rt.ports, rt.ports.Keys))), P.Record)
  {
    hide Launched, OpenPorts, StrayPorts, CanStart, UniquePorts;
    var a := View(s, of).(current := Some(P.Start(i, rt.ports, rt.ports.Keys)));
    forall n, u, k | n in rt.ports && u != i
      ensures !P.HasRow(a, u, k, rt.ports[n])
    {
      OthersRow(s, d, i, rt, n, u, k);
    }
    forall n, k | n in rt.ports && k in rt.ports && n != k ensures rt.ports[n] != rt.ports[k] { OwnRows(d, i, rt, n, k); }
  }

  lemma OthersRow(s: World, d: World, i: InstanceId, rt: Runtime, n: string, u: InstanceId, k: string)
    requires i in s.db.instances && d.db == ReplaceRuntime(s.db, i, rt) && UniquePorts(d.db.instances) && n in rt.ports && u != i
    ensures !(u in s.db.instances && k in s.db.instances[u].runtime.ports && s.db.instances[u].runtime.ports[k] == rt.ports[n])
  {
    assert d.db.instances[i].runtime == rt;
    assert u in s.db.instances ==> d.db.instances[u] == s.db.instances[u];
  }

  lemma OwnRows(d: World, i: InstanceId, rt: Runtime, n: string, k: string)
    requires i in d.db.instances && d.db.instances[i].runtime == rt && UniquePorts(d.db.instances)
    requires n in rt.ports && k in rt.ports && n != k
    ensures rt.ports[n] != rt.ports[k]
  {
  }

  lemma RecordLeads(s: World, d: World, i: InstanceId, rt: Runtime, of: ContainerId -> InstanceId, w: World, preferred: map<string, nat>)
    requires IdsIssued(s) && CanStart(s, i, preferred) && Deployed(s, d, i, rt)
    requires w == d.(db := s.db.(retired := s.db.retired + rt.containers)) && Launched(s, w, rt)
    requires Grown(s, w) && Allocated(s, w, preferred) && ChosenBy(s, w, preferred) == rt.ports
    requires P.Enabled(View(s, of).(current := Some(P.Start(i, rt.ports, rt.ports.Keys))), P.Record)
    ensures P.Apply(View(s, of).(current := Some(P.Start(i, rt.ports, rt.ports.Keys))), P.Record) == View(d, of)
  {
    hide Allocated, ChosenBy, HoldsMore, OpenPorts, StrayPorts, Grown, Launched, CanStart, P.Enabled;
    StartHoldsMore(s, w, preferred);
    assert PortRows(d.db) == PortRows(s.db)[i := rt.ports];
    NewAreOwned(s, d, i, rt, of, w, preferred);
  }

  lemma NewAreOwned(s: World, d: World, i: InstanceId, rt: Runtime, of: ContainerId -> InstanceId, w: World, preferred: map<string, nat>)
    requires IdsIssued(s) && CanStart(s, i, preferred) && Deployed(s, d, i, rt)
    requires w == d.(db := s.db.(retired := s.db.retired + rt.containers)) && HoldsMore(s, w, rt.ports)
    ensures OpenPorts(d) == OpenPorts(s) + P.PortsOf(rt.ports)
    ensures StrayPorts(d, of) == StrayPorts(s, of)
  {
    hide HeldPorts, Owned, Deployed, IdsIssued;
    assert s.db.instances[i].runtime.containers !! s.running;
    hide CanStart;
    OwnersAfter(s, d, i, rt);
    forall c | c in d.running ensures c in d.containers && HeldPorts(d, c) == HeldPorts(w, c) { HeldStays(w, d, c); }
    forall p | p in OpenPorts(d) ensures p in OpenPorts(s) + P.PortsOf(rt.ports) {
      var c :| c in d.running && c in d.containers && Owned(d.db, c) && p in HeldPorts(d, c);
      assert p in HeldPorts(w, c);
    }
    forall n | n in rt.ports ensures rt.ports[n] in OpenPorts(d) {
      var c :| c in w.running && c !in s.running && rt.ports[n] in HeldPorts(w, c);
      assert Owned(d.db, c) && rt.ports[n] in HeldPorts(d, c);
    }
  }

  lemma OwnersAfter(s: World, d: World, i: InstanceId, rt: Runtime)
    requires IdsIssued(s) && Deployed(s, d, i, rt)
    ensures forall c: ContainerId | c in rt.containers :: Owned(d.db, c) && c !in s.running
    ensures forall c: ContainerId | c in s.running && c !in s.db.instances[i].runtime.containers :: Owned(d.db, c) <==> Owned(s.db, c)
    ensures forall c | c in d.running && c !in s.running :: c in rt.containers
  {
    hide FitsRuntime, AsRecorded;
    var since := s.db.instances[i].runtime.containers;
    assert d.db.instances[i].runtime.containers == rt.containers;
    assert forall u | u in s.db.instances && u != i :: d.db.instances[u] == s.db.instances[u];
    forall c: ContainerId | c in s.running && c !in since
      ensures Owned(d.db, c) <==> Owned(s.db, c)
    {
      if u :| u in s.db.instances && c in s.db.instances[u].runtime.containers { assert c in d.db.instances[u].runtime.containers; }
      if u :| u in d.db.instances && c in d.db.instances[u].runtime.containers {
        assert u != i ==> c in s.db.instances[u].runtime.containers;
      }
    }
  }

  // ---------------------------------------------- stopping and restarting

  /** Fewer containers run, and those that do hold what they held. */
  ghost predicate Fewer(s: World, d: World) {
    && d.running <= s.running && d.db.instances == s.db.instances
    && (forall c | c in d.running && c in d.containers :: c in s.containers && d.containers[c] == s.containers[c] && SameEntry(s.picked, d.picked, c))
  }

  /** Pausing containers, and removing what failed starts left, give ports back one by one. */
  lemma StopsRun(s: World, d: World, ids: set<ContainerId>, of: ContainerId -> InstanceId) returns (steps: seq<P.Step>)
    requires Paused(s, d, ids) || Reaped(s, d, ids)
    ensures P.Leads(View(s, of), steps, View(d, of))
  {
    hide *;
    StopsAreFewer(s, d, ids);
    FewerPorts(s, d, of);
    steps := StopsAll(View(s, of), View(d, of));
  }

  lemma StopsAreFewer(s: World, d: World, ids: set<ContainerId>)
    requires Paused(s, d, ids) || Reaped(s, d, ids)
    ensures Fewer(s, d)
  {
  }

  lemma FewerPorts(s: World, d: World, of: ContainerId -> InstanceId)
    requires Fewer(s, d)
    ensures
      var a, b := View(s, of), View(d, of);
      b.open <= a.open && b.stray <= a.stray && b == a.(open := b.open, stray := b.stray)
  {
    hide HeldPorts;
    assert forall c: ContainerId :: Owned(d.db, c) <==> Owned(s.db, c);
    forall c | c in d.running && c in d.containers ensures HeldPorts(d, c) == HeldPorts(s, c) { HeldStays(s, d, c); }
  }

  lemma {:induction false} StopsAll(a: P.State, b: P.State) returns (steps: seq<P.Step>)
    requires b.open <= a.open && b.stray <= a.stray && b == a.(open := b.open, stray := b.stray)
    ensures P.Leads(a, steps, b)
    decreases |a.open| + |a.stray|
  {
    if !(a.open <= b.open) {
      var port :| port in a.open && port !in b.open;
      var rest := StopsAll(a.(open := a.open - {port}), b);
      steps := P.LeadsFirst(a, P.Pause(port), a.(open := a.open - {port}), rest, b);
    } else if !(a.stray <= b.stray) {
      var x :| x in a.stray && x !in b.stray;
      var rest := StopsAll(a.(stray := a.stray - {x}), b);
      steps := P.LeadsFirst(a, P.Clear(x), a.(stray := a.stray - {x}), rest, b);
    } else {
      P.LeadsNowhere(a);
      steps := [];
    }
  }

  /** Docker restarts a container of an instance exactly on the ports on record. */
  lemma RestartRuns(s: World, d: World, c: ContainerId, i: InstanceId, of: ContainerId -> InstanceId) returns (steps: seq<P.Step>)
    requires i in s.db.instances && c in s.db.instances[i].runtime.containers && FitsRuntime(s.containers, s.db.instances[i].runtime)
    requires c in s.containers && c !in s.running && PortsFree(s, c) && Pinned(s.containers, {c}) && IsStarted(s, d, c)
    ensures P.Leads(View(s, of), steps, View(d, of))
  {
    hide *;
    OpensMore(s, d, c, i, of);
    FreeToResume(s, c, i, of);
    steps := ResumesAll(View(s, of), i, s.containers[c].binds);
  }

  lemma OpensMore(s: World, d: World, c: ContainerId, i: InstanceId, of: ContainerId -> InstanceId)
    requires i in s.db.instances && c in s.db.instances[i].runtime.containers
    requires FitsRuntime(s.containers, s.db.instances[i].runtime)
    requires c in s.containers && c !in s.running && Pinned(s.containers, {c}) && IsStarted(s, d, c)
    ensures View(d, of) == View(s, of).(open := View(s, of).open + P.PortsOf(s.containers[c].binds))
  {
    hide HeldPorts, OpenPorts, StrayPorts;
    forall e | e in s.running && e in s.containers && e != c ensures HeldPorts(d, e) == HeldPorts(s, e) { HeldStays(s, d, e); }
    assert forall n | n in s.containers[c].binds :: n in s.containers[c].names;
    PinnedHolds(d, c);
    assert Owned(s.db, c);
    OneMoreRuns(s, d, c, of);
  }

  lemma OneMoreRuns(s: World, d: World, c: ContainerId, of: ContainerId -> InstanceId)
    requires d.db == s.db && d.containers == s.containers && c in s.containers && d.running == s.running + {c} && Owned(s.db, c)
    requires c !in s.running && forall e | e in s.running && e in s.containers :: HeldPorts(d, e) == HeldPorts(s, e)
    ensures OpenPorts(d) == OpenPorts(s) + HeldPorts(d, c) && StrayPorts(d, of) == StrayPorts(s, of)
  {
    hide HeldPorts, Owned;
    forall p | p in OpenPorts(d) ensures p in OpenPorts(s) + HeldPorts(d, c) {
      var e :| e in d.running && e in d.containers && Owned(d.db, e) && p in HeldPorts(d, e);
    }
    forall p | p in HeldPorts(d, c) ensures p in OpenPorts(d) { }
    forall p | p in OpenPorts(s) ensures p in OpenPorts(d) {
      var e :| e in s.running && e in s.containers && Owned(s.db, e) && p in HeldPorts(s, e);
      assert p in HeldPorts(d, e);
    }
  }

  lemma PinnedHolds(d: World, c: ContainerId)
    requires c in d.containers && d.containers[c].binds.Keys == d.containers[c].names
    ensures HeldPorts(d, c) == P.PortsOf(d.containers[c].binds)
  {
    assert forall n | n in d.containers[c].names :: Holds(d, c, n) && HeldPort(d, c, n) == d.containers[c].binds[n];
  }

  /** Ports on record that nobody holds. */
  ghost predicate Resumable(a: P.State, i: InstanceId, ports: map<string, nat>) {
    && !P.IsStarting(a, i)
    && (forall n | n in ports :: P.HasRow(a, i, n, ports[n]) && !P.Held(a, ports[n]))
    && (forall n, k | n in ports && k in ports && n != k :: ports[n] != ports[k])
  }

  lemma FreeToResume(s: World, c: ContainerId, i: InstanceId, of: ContainerId -> InstanceId)
    requires i in s.db.instances && c in s.db.instances[i].runtime.containers && FitsRuntime(s.containers, s.db.instances[i].runtime)
    requires c in s.containers && c !in s.running && PortsFree(s, c)
    ensures Resumable(View(s, of), i, s.containers[c].binds)
  {
    var a, ports := View(s, of), s.containers[c].binds;
    forall n, h | n in ports
      ensures !P.HeldBy(a, h, ports[n])
    {
      assert forall r | r in s.running && r in s.containers :: ports[n] !in HeldPorts(s, r);
    }
  }

  lemma {:induction false} ResumesAll(a: P.State, i: InstanceId, ports: map<string, nat>) returns (steps: seq<P.Step>)
    requires Resumable(a, i, ports)
    ensures P.Leads(a, steps, a.(open := a.open + P.PortsOf(ports)))
    decreases |ports|
  {
    hide *;
    if ports == map[] {
      NothingToResume(a);
      return [];
    }
    var n :| n in ports;
    var b := ResumesOne(a, i, ports, n);
    var rest := ResumesAll(b, i, ports - {n});
    steps := P.LeadsFirst(a, P.Resume(i, n), b, rest, a.(open := a.open + P.PortsOf(ports)));
  }

  lemma NothingToResume(a: P.State)
    ensures P.Leads(a, [], a.(open := a.open + P.PortsOf(map[])))
  {
    assert a.open + P.PortsOf(map[]) == a.open;
  }

  lemma PortsOfOne(ports: map<string, nat>, n: string)
    requires n in ports
    ensures P.PortsOf(ports) == {ports[n]} + P.PortsOf(ports - {n})
  {
    forall k | k in ports && k != n ensures ports[k] in P.PortsOf(ports - {n}) {
      assert k in ports - {n} && (ports - {n})[k] == ports[k];
    }
  }

  lemma ResumesOne(a: P.State, i: InstanceId, ports: map<string, nat>, n: string) returns (b: P.State)
    requires Resumable(a, i, ports) && n in ports
    ensures P.Enabled(a, P.Resume(i, n)) && b == P.Apply(a, P.Resume(i, n)) && Resumable(b, i, ports - {n})
    ensures |ports - {n}| < |ports| && b.(open := b.open + P.PortsOf(ports - {n})) == a.(open := a.open + P.PortsOf(ports))
  {
    b := a.(open := a.open + {ports[n]});
    PortsOfOne(ports, n);
    assert a.open + P.PortsOf(ports) == b.open + P.PortsOf(ports - {n});
    forall k, h | k in ports - {n}
      ensures !P.HeldBy(b, h, ports[k])
    {
      if P.HeldBy(b, h, ports[k]) { assert P.HeldBy(a, h, ports[k]); }
    }
  }

  // ------------------------------------------------- opening and closing rows

  lemma OpenRuns(s: World, d: World, i: InstanceId, row: Instance, of: ContainerId -> InstanceId) returns (steps: seq<P.Step>)
    requires i !in s.db.instances && row.runtime == NOTHING
    requires d == s.(db := d.db) && d.db.instances == s.db.instances[i := row]
    ensures P.Leads(View(s, of), steps, View(d, of))
  {
    hide *;
    OpenView(s, d, i, row, of);
    P.LeadsNowhere(View(s, of));
    P.LeadsOn(View(s, of), [], View(s, of), P.Open(i));
    steps := [] + [P.Open(i)];
  }

  lemma OpenView(s: World, d: World, i: InstanceId, row: Instance, of: ContainerId -> InstanceId)
    requires i !in s.db.instances && row.runtime == NOTHING
    requires d == s.(db := d.db) && d.db.instances == s.db.instances[i := row]
    ensures P.Enabled(View(s, of), P.Open(i)) && View(d, of) == P.Apply(View(s, of), P.Open(i))
  {
    hide HeldPorts;
    SameOwners(s, d, {});
    forall c | c in s.containers ensures HeldPorts(d, c) == HeldPorts(s, c) { HeldStays(s, d, c); }
    assert PortRows(d.db) == PortRows(s.db)[i := map[]];
  }

  /** The row of an instance goes when none of its containers runs. */
  lemma CloseRuns(s: World, d: World, i: InstanceId, preferred: map<string, nat>, of: ContainerId -> InstanceId) returns (steps: seq<P.Step>)
    requires CanStart(s, i, preferred)
    requires d == s.(db := d.db) && d.db.instances == s.db.instances - {i}
    ensures P.Leads(View(s, of), steps, View(d, of))
  {
    hide *;
    CloseView(s, d, i, preferred, of);
    P.LeadsNowhere(View(s, of));
    P.LeadsOn(View(s, of), [], View(s, of), P.Release(i));
    steps := [] + [P.Release(i)];
  }

  lemma CloseView(s: World, d: World, i: InstanceId, preferred: map<string, nat>, of: ContainerId -> InstanceId)
    requires CanStart(s, i, preferred)
    requires d == s.(db := d.db) && d.db.instances == s.db.instances - {i}
    ensures P.Enabled(View(s, of), P.Release(i)) && View(d, of) == P.Apply(View(s, of), P.Release(i))
  {
    TakeIsEnabled(s, i, preferred, of);
    hide HeldPorts, UniquePorts, AsRecorded;
    SameOwners(s, d, s.db.instances[i].runtime.containers);
    forall c | c in s.containers ensures HeldPorts(d, c) == HeldPorts(s, c) { HeldStays(s, d, c); }
    assert PortRows(d.db) == PortRows(s.db) - {i};
    assert OpenPorts(s) - P.PortsOf(PortRows(s.db)[i]) == OpenPorts(s);
  }

  lemma SameOwners(s: World, d: World, ids: set<ContainerId>)
    requires forall i | i in s.db.instances :: (i in d.db.instances && d.db.instances[i] == s.db.instances[i]) || s.db.instances[i].runtime.containers <= ids
    requires forall i | i in d.db.instances :: (i in s.db.instances && d.db.instances[i] == s.db.instances[i]) || d.db.instances[i].runtime.containers <= ids
    ensures forall c: ContainerId | c !in ids :: Owned(d.db, c) <==> Owned(s.db, c)
  {
  }

  /** A cutover whose start fails: paused, started in vain, cleared.  Once all it created is
      gone nothing of it is in the way of another start. */
  lemma FailedCutoverRuns(s: World, p: World, w: World, d: World, i: InstanceId, ids: set<ContainerId>, created: set<ContainerId>,
                          preferred: map<string, nat>, of: ContainerId -> InstanceId)
    returns (steps: seq<P.Step>)
    requires Paused(s, p, ids) && IdsIssued(p) && CanStart(p, i, preferred)
    requires GrownBy(p, w, created) && Allocated(p, w, preferred) && Reaped(w, d, created)
    requires forall c | p.nextId <= c < w.nextId :: of(c) == i
    ensures P.Leads(View(s, of), steps, View(d, of))
    ensures created !! d.containers.Keys && created !! d.db.retired ==> View(d, of) == View(p, of)
  {
    hide *;
    GrownByIsGrown(p, created);
    var pausing := StopsRun(s, p, ids, of);
    var failing := FailedStartRuns(p, w, i, preferred, of);
    var clearing := StopsRun(w, d, created, of);
    P.LeadsTwice(View(s, of), pausing, View(p, of), failing, View(w, of));
    P.LeadsTwice(View(s, of), pausing + failing, View(w, of), clearing, View(d, of));
    steps := pausing + failing + clearing;
    GrownThenReaped(p, w, created);
    if created !! d.containers.Keys && created !! d.db.retired { SameView(p, d, of); }
  }

  lemma SameView(p: World, d: World, of: ContainerId -> InstanceId)
    requires d == p.(nextId := d.nextId)
    ensures View(d, of) == View(p, of)
  {
    hide HeldPorts;
    forall c | c in p.containers ensures HeldPorts(d, c) == HeldPorts(p, c) { HeldStays(p, d, c); }
  }
}
