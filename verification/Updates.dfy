/**
 Updating challenges: the durable marker, the rebuild of every build, and either the end of
 all of it or the way back (database_challenges.go).
 */
module Updates {
  import opened Store
  import opened Instances
  import opened Containers
  import opened Safety
  import opened Placement
  import opened Cutover
  import opened Moving
  import opened Promotion
  import opened Building
  import opened Generations
  import opened BuildUpdates

  /** `Unfinished` leaves the marker; `RolledBack(false)` means an undo call failed. */
  datatype UpdateResult = Refused | Refreshed | RolledBack(clean: bool) | Unfinished | Completed

  // ------------------------------------------------------ challenge records

  function WithChallenge(db: Db, ch: ChallengeId, c: Challenge): Db {
    db.(challenges := db.challenges[ch := c])
  }

  function InProgress(c: Challenge): Challenge {
    c.(sourceDigest := "")
  }

  lemma ChallengeConstraints(db: Db, ch: ChallengeId, c: Challenge)
    requires Constraints(db) && ch in db.challenges && Recordable(c)
    ensures Constraints(WithChallenge(db, ch, c))
  {
  }

  lemma ConstrainedHosts(db: Db, ch: ChallengeId, c: Challenge)
    requires Constraints(WithChallenge(db, ch, c))
    ensures Recordable(c) && DistinctHosts(c.hosts)
  {
    assert WithChallenge(db, ch, c).challenges[ch] == c;
  }

  lemma SoundRecord(s: World, ch: ChallengeId, c: Challenge)
    requires Sound(s) && Constraints(WithChallenge(s.db, ch, c))
    ensures Sound(s.(db := WithChallenge(s.db, ch, c)))
  {
    hide Constraints, FitsRuntime, DistinctImages;
    var d := s.(db := WithChallenge(s.db, ch, c));
    forall x | x in d.running
      ensures Tracked(d.db, x)
    {
      if Owned(s.db, x) { assert Owned(d.db, x); }
    }
  }

  lemma TablesRecord(base: Db, s: Db, ch: ChallengeId, c: Challenge, since: ContainerId)
    requires WithinTables(base, s, ch, since) && ch in base.challenges
    ensures WithinTables(base, WithChallenge(s, ch, c), ch, since)
  {
    hide OldOrNew;
  }

  lemma WithinRecord(base: World, s: World, ch: ChallengeId, c: Challenge)
    requires Within(base, s, ch) && ch in base.db.challenges
    ensures
      var d := s.(db := WithChallenge(s.db, ch, c));
      Within(base, d, ch) && (Tidy(base, s) ==> Tidy(base, d))
  {
    hide WithinTables, OtherTags;
    TablesRecord(base.db, s.db, ch, c, base.nextId);
    var d := s.(db := WithChallenge(s.db, ch, c));
    forall x | Tracked(s.db, x)
      ensures Tracked(d.db, x)
    {
      if Owned(s.db, x) { assert Owned(d.db, x); }
    }
  }

  lemma WithinSelf(base: World, ch: ChallengeId)
    requires Sound(base)
    ensures Within(base, base, ch) && Tidy(base, base) && Undiminished(base, base)
  {
    hide Constraints, FitsRuntime, OwnedOrRetired, BuildsDistinct;
    assert WithinTables(base.db, base.db, ch, base.nextId);
  }

  /** The marker: the update may now stop anywhere. */
  lemma MarkedIsSafe(base: World, ch: ChallengeId, c: Challenge)
    requires Sound(base) && ch in base.db.challenges && Constraints(WithChallenge(base.db, ch, InProgress(c)))
    ensures
      var d := base.(db := WithChallenge(base.db, ch, InProgress(c)));
      && Safe(base, d, ch) && Tidy(base, d) && Undiminished(base, d) && (Calm(base, base, ch) ==> Calm(base, d, ch))
      && d.db.builds == base.db.builds && d.db.instances == base.db.instances && RecordImages(d.db, ch) == ImagesOf(c.hosts, c.portMap)
  {
    hide Sound, Within, Tidy, Constraints, Candidate, ImagesOf;
    SoundRecord(base, ch, InProgress(c));
    WithinSelf(base, ch);
    WithinRecord(base, base, ch, InProgress(c));
    SameRowsQuiet(base, base.(db := WithChallenge(base.db, ch, InProgress(c))));
  }

  /** Builds of other challenges are kept throughout. */
  lemma OtherBuildKept(base: World, d: World, ch: ChallengeId, b: BuildId)
    requires Sound(base) && Within(base, d, ch) && b in base.db.builds && base.db.builds[b].challenge != ch
    ensures b in d.db.builds && KeepsBuild(base, d, b)
  {
    hide RuntimeImages, OldOrNew, Tracked, FitsRuntime, BuildsDistinct, OwnedOrRetired, Constraints, Others, RunsNew;
    assert d.db.builds[b] == base.db.builds[b];
    forall i | i in d.db.instances && d.db.instances[i].build == b
      ensures RunsOld(base, d, i)
    {
      assert !Belongs(base.db, i, ch);
      assert d.db.instances[i] == base.db.instances[i];
    }
  }

  /** Challenges other than the one being updated keep their generation throughout. */
  lemma OthersKeepGeneration(base: World, d: World, ch: ChallengeId, other: ChallengeId)
    requires Sound(base) && Within(base, d, ch) && other != ch && Generation(base, other)
    ensures Generation(d, other)
  {
    hide Sound, WithinDocker, OthersRun, OtherTags, OtherArtifacts, OldOrNew, KeepsBuild, BuildSpokenFor;
    if other in d.db.challenges && d.db.challenges[other].sourceDigest != "" {
      var g := d.db.challenges[other].sourceDigest;
      forall b | b in d.db.builds && d.db.builds[b].challenge == other
        ensures BuildSpokenFor(d, b, g)
      {
        assert BuildKey(d.db.builds[b]) == BuildKey(base.db.builds[b]);
        OtherBuildKept(base, d, ch, b);
        KeptSpokenFor(base, d, b, g);
      }
    }
  }

  lemma MarkedGeneration(base: World, d: World, ch: ChallengeId)
    requires Sound(base) && Consistent(base) && Within(base, d, ch) && Marked(d.db, ch)
    ensures Consistent(d)
  {
    hide Sound, Within;
    forall other: ChallengeId ensures Generation(d, other) {
      if other != ch { OthersKeepGeneration(base, d, ch, other); }
    }
  }

  lemma SafeIsConsistent(base: World, ch: ChallengeId)
    requires Sound(base) && Consistent(base)
    ensures forall d :: Safe(base, d, ch) ==> Sound(d) && Consistent(d)
  {
    hide Sound, Within, Consistent, Marked;
    forall d | Safe(base, d, ch) ensures Consistent(d) { MarkedGeneration(base, d, ch); }
  }

  lemma SameGeneration(base: World, d: World)
    requires AsBefore(base, d)
    ensures Consistent(base) ==> Consistent(d)
  {
    hide Consistent, RunsNew;
    forall b | b in d.db.builds ensures KeepsBuild(base, d, b) { }
    if Consistent(base) { KeptConsistent(base, d); }
  }

  // -------------------------------------------------------- all the builds

  ghost predicate Rebuilt(base: World, now: World, done: set<BuildId>, g: string) {
    forall b | b in done :: WhollyOf(now, b, g) && NewlyRun(base, now, b)
  }

  ghost predicate AllUntouched(base: World, now: World, todo: set<BuildId>) {
    forall b | b in todo :: Untouched(base, now, b)
  }

  /** Every completed update can be undone, and its output is what its build row holds. */
  ghost predicate AllUndoable(base: World, now: World, ch: ChallengeId, updates: seq<BuildUpdate>, done: set<BuildId>) {
    forall u | u in updates ::
      && Undoable(base, now, ch, u) && u.build in done
      && u.build in now.db.builds && now.db.builds[u.build].output == u.candidate
  }

  ghost predicate TrailsFit(updates: seq<BuildUpdate>, trails: seq<Trail>) {
    && |trails| == |updates|
    && (forall k | 0 <= k < |updates| :: |trails[k].stages| == |updates[k].cutovers| + 1)
  }

  /** Where the update of build number `k` began; `now` when there was none. */
  ghost function Began(trails: seq<Trail>, k: nat, now: World): World {
    if k < |trails| then trails[k].pre else now
  }

  /** The updates ran one after another from `s` to `now`. */
  ghost predicate Chain(s: World, updates: seq<BuildUpdate>, trails: seq<Trail>, now: World) {
    && |trails| == |updates|
    && Same(s, Began(trails, 0, now))
    && (forall k | 0 <= k < |updates| :: Carried(trails[k], updates[k], Began(trails, k + 1, now)))
  }

  lemma ChainFirst(s: World)
    ensures Chain(s, [], [], s) && TrailsFit([], [])
  {
  }

  lemma ChainOn(s: World, updates: seq<BuildUpdate>, trails: seq<Trail>, mid: World, now: World, u: BuildUpdate, t: Trail)
    requires Chain(s, updates, trails, mid) && t.pre == mid && Carried(t, u, now)
    ensures Chain(s, updates + [u], trails + [t], now)
  {
    hide Carried, Same;
    var us, ts := updates + [u], trails + [t];
    assert Began(ts, 0, now) == Began(trails, 0, mid);
    forall k | 0 <= k < |us|
      ensures Carried(ts[k], us[k], Began(ts, k + 1, now))
    {
      if k < |updates| {
        assert us[k] == updates[k] && ts[k] == trails[k];
        assert Began(ts, k + 1, now) == Began(trails, k + 1, mid);
      }
    }
  }

  lemma ChainSame(s: World, updates: seq<BuildUpdate>, trails: seq<Trail>, mid: World, now: World)
    requires Chain(s, updates, trails, mid) && Same(mid, now)
    ensures Chain(s, updates, trails, now)
  {
    hide Carried;
    if updates == [] {
      SameTrans(s, mid, now);
    } else {
      forall k | 0 <= k < |updates|
        ensures Carried(trails[k], updates[k], Began(trails, k + 1, now))
      {
        assert Carried(trails[k], updates[k], Began(trails, k + 1, mid));
        if k + 1 == |updates| { CarriedSame(trails[k], updates[k], mid, now); }
      }
    }
  }

  lemma ChainStep(s: World, updates: seq<BuildUpdate>, trails: seq<Trail>, end: World, k: nat, now: World)
    requires Chain(s, updates, trails, end) && k < |updates| && Same(Began(trails, k + 1, end), now)
    ensures Carried(trails[k], updates[k], now) && Began(trails, k, end) == trails[k].pre
  {
    CarriedSame(trails[k], updates[k], Began(trails, k + 1, end), now);
  }

  ghost function HaltedTrails(trails: seq<Trail>, hit: set<ContainerId>): seq<Trail> {
    seq(|trails|, k requires 0 <= k < |trails| => HaltedTrail(trails[k], hit))
  }

  lemma HaltedTrailsFit(updates: seq<BuildUpdate>, trails: seq<Trail>, hit: set<ContainerId>)
    requires TrailsFit(updates, trails)
    ensures TrailsFit(updates, HaltedTrails(trails, hit))
  {
  }

  /** Where one container is down from the start, the same updates ran one after another. */
  lemma ChainHalted(s: World, updates: seq<BuildUpdate>, trails: seq<Trail>, now: World, hit: set<ContainerId>)
    requires Chain(s, updates, trails, now)
    requires forall u, cut | u in updates && cut in u.cutovers :: hit !! cut.candidate.containers
    ensures Chain(Halted(s, hit), updates, HaltedTrails(trails, hit), Halted(now, hit))
  {
    hide Carried, Same, Halted;
    var halted := HaltedTrails(trails, hit);
    forall k: nat | k <= |trails| ensures Began(halted, k, Halted(now, hit)) == Halted(Began(trails, k, now), hit) {
      if k < |trails| { HaltedTrailParts(trails[k], hit); }
    }
    SameHalted(s, Began(trails, 0, now), hit);
    forall k | 0 <= k < |updates|
      ensures Carried(halted[k], updates[k], Began(halted, k + 1, Halted(now, hit)))
    {
      assert updates[k] in updates;
      CarriedHalted(trails[k], updates[k], Began(trails, k + 1, now), hit);
    }
  }

  /** A container that is down after a failed update of `b` is none that an update started. */
  lemma TakenBackHit(base: World, now: World, next: World, ch: ChallengeId, b: BuildId, updates: seq<BuildUpdate>, exactly: bool)
    requires Sound(base) && TakenBack(base, now, next, b, exactly)
    requires forall u | u in updates :: Undoable(base, now, ch, u)
    ensures
      var hit := now.running - next.running;
      && Same(Halted(now, hit), next) && |hit| <= 1 && (exactly ==> hit == {})
      && (forall u, cut | u in updates && cut in u.cutovers :: hit !! cut.candidate.containers)
  {
    hide Constraints, OwnedOrRetired, FitsRuntime, BuildsDistinct, OwnNames, DistinctImages, RecordImages;
    AsBeforeHalted(now, next);
    forall u, cut | u in updates && cut in u.cutovers
      ensures (now.running - next.running) !! cut.candidate.containers
    {
      assert CutsUndoable(base, now, ch, u.cutovers);
    }
  }

  /** Every instance of every build in `done` was cut over by one of the updates. */
  ghost predicate AllCut(base: World, updates: seq<BuildUpdate>, done: set<BuildId>) {
    forall b | b in done :: CutBy(base, updates, b)
  }

  ghost predicate CutBy(base: World, updates: seq<BuildUpdate>, b: BuildId) {
    exists u :: u in updates && u.build == b && CutsFor(InstancesOf(base.db, b), u.cutovers)
  }

  lemma AllCutOn(base: World, s: World, ch: ChallengeId, updates: seq<BuildUpdate>, done: set<BuildId>, u: BuildUpdate)
    requires Safe(base, s, ch) && AllCut(base, updates, done) && CutsFor(InstancesOf(s.db, u.build), u.cutovers)
    ensures AllCut(base, updates + [u], done + {u.build})
  {
    hide CutsFor, Sound, WithinDocker, OthersRun, OtherTags, OtherArtifacts, OldOrNew;
    assert InstancesOf(s.db, u.build) == InstancesOf(base.db, u.build);
    forall b | b in done + {u.build}
      ensures CutBy(base, updates + [u], b)
    {
      if b == u.build {
        assert u in updates + [u];
      } else {
        assert CutBy(base, updates, b);
        var x :| x in updates && x.build == b && CutsFor(InstancesOf(base.db, b), x.cutovers);
        assert x in updates + [u];
      }
    }
  }

  /** What the instances of the challenge ran in `base` is gone and forgotten. */
  ghost predicate OldRemoved(base: World, now: World, ch: ChallengeId) {
    forall i, c | Belongs(base.db, i, ch) && c in base.db.instances[i].runtime.containers :: c !in now.containers && c !in now.db.retired
  }

  lemma AllOldRemoved(base: World, now: World, ch: ChallengeId, updates: seq<BuildUpdate>)
    requires AllCut(base, updates, BuildsOf(base.db, ch)) && forall u | u in updates :: Undoable(base, now, ch, u)
    requires forall u | u in updates :: OldGone(now, u.cutovers)
    ensures OldRemoved(base, now, ch)
  {
    hide OwnNames, DistinctImages, Exclusive;
    forall i, c | Belongs(base.db, i, ch) && c in base.db.instances[i].runtime.containers
      ensures c !in now.containers && c !in now.db.retired
    {
      var b := base.db.instances[i].build;
      assert b in BuildsOf(base.db, ch) && i in InstancesOf(base.db, b);
      assert CutBy(base, updates, b);
      var u :| u in updates && u.build == b && CutsFor(InstancesOf(base.db, b), u.cutovers);
      var cut :| cut in u.cutovers && cut.instance == i;
      assert cut.old_ == base.db.instances[i].runtime;
    }
  }

  lemma AllStayUndoable(base: World, s: World, d: World, ch: ChallengeId, updates: seq<BuildUpdate>)
    requires IdsIssued(base) && Moves(base, s, d)
    requires forall u | u in updates :: Undoable(base, s, ch, u)
    ensures forall u | u in updates :: Undoable(base, d, ch, u)
  {
    hide Moves, Undoable, IdsIssued;
    forall u | u in updates ensures Undoable(base, d, ch, u) { StaysUndoable(base, s, d, ch, u); }
  }

  /** Undoes completed updates, the latest first. */
  method RollbackUpdates(m: Manager, updates: seq<BuildUpdate>, ghost trails: seq<Trail>, ghost s: World, ghost base: World, ghost ch: ChallengeId)
    returns (ok: bool)
    requires Sound(base) && Safe(base, m.world, ch) && Undiminished(base, m.world)
    requires TrailsFit(updates, trails) && forall u | u in updates :: Undoable(base, m.world, ch, u)
    modifies m
    ensures Safe(base, m.world, ch) && m.world.db.challenges == old(m.world.db.challenges)
    ensures ok && Chain(s, updates, trails, old(m.world)) ==> Same(s, m.world)
    ensures m.reliable && Calm(base, old(m.world), ch) && Chain(s, updates, trails, old(m.world)) ==> ok && Calm(base, m.world, ch)
    ensures old(m.crashPoints) <= m.crashPoints
    ensures forall d | d in m.crashPoints :: d in old(m.crashPoints) || Safe(base, d, ch)
  {
    hide *;
    ghost var end := m.world;
    ghost var exact := Chain(s, updates, trails, end);
    SameNow(end);
    SoundIds(base);
    BeganAtEnd(trails, updates, end);
    ok := true;
    for k := |updates| downto 0
      invariant Safe(base, m.world, ch) && Undiminished(base, m.world) && m.world.db.challenges == end.db.challenges
      invariant forall u | u in updates :: Undoable(base, m.world, ch, u)
      invariant exact && ok ==> Same(Began(trails, k, end), m.world)
      invariant m.reliable && Calm(base, end, ch) && exact ==> ok && Calm(base, m.world, ch)
      invariant old(m.crashPoints) <= m.crashPoints
      invariant forall d | d in m.crashPoints :: d in old(m.crashPoints) || Safe(base, d, ch)
    {
      ghost var now := m.world;
      if exact && ok { ChainStep(s, updates, trails, end, k, now); }
      TrailFits(updates, trails, k);
      var undone := RollbackBuildUpdate(m, updates[k], trails[k], base, ch);
      AllStayUndoable(base, now, m.world, ch, updates);
      RecordKept(base, now, m.world, ch);
      ok := ok && undone;
    }
    if exact && ok { ChainBegins(s, updates, trails, end, m.world); }
  }

  lemma BeganAtEnd(trails: seq<Trail>, updates: seq<BuildUpdate>, end: World)
    requires TrailsFit(updates, trails)
    ensures Began(trails, |updates|, end) == end && |trails| == |updates|
  {
  }

  lemma TrailFits(updates: seq<BuildUpdate>, trails: seq<Trail>, k: nat)
    requires TrailsFit(updates, trails) && k < |updates|
    ensures |trails| == |updates| && |trails[k].stages| == |updates[k].cutovers| + 1
  {
  }

  lemma ChainBegins(s: World, updates: seq<BuildUpdate>, trails: seq<Trail>, end: World, now: World)
    requires Chain(s, updates, trails, end) && Same(Began(trails, 0, end), now)
    ensures Same(s, now)
  {
    SameTrans(s, Began(trails, 0, end), now);
  }

  lemma RebuiltOn(base: World, s: World, d: World, ch: ChallengeId, done: set<BuildId>, b: BuildId, g: string)
    requires IdsIssued(s) && Elsewhere(s, d, ch, b) && Rebuilt(base, s, done, g) && b !in done
    requires WhollyOf(d, b, g) && NewlyRun(base, d, b) && d.db.challenges == s.db.challenges
    ensures Rebuilt(base, d, done + {b}, g)
  {
    hide WhollyOf, NewlyRun, Elsewhere;
    forall x | x in done
      ensures WhollyOf(d, x, g) && NewlyRun(base, d, x)
    {
      GenerationElsewhere(s, d, ch, b, x, g);
      RenewedElsewhere(base, s, d, ch, b, x);
    }
  }

  lemma RenewedElsewhere(base: World, s: World, d: World, ch: ChallengeId, b: BuildId, x: BuildId)
    requires IdsIssued(s) && Elsewhere(s, d, ch, b) && x != b && NewlyRun(base, s, x) && d.db.challenges == s.db.challenges
    ensures NewlyRun(base, d, x)
  {
    hide Renewed;
    var c, images := s.db.builds[x].challenge, s.db.builds[x].output.images;
    assert Lookup(d.artifacts, Canonical(x)) == Lookup(s.artifacts, Canonical(x));
    forall image | image in images
      ensures var n := TagName(c, x, image.host, ""); n in s.tags ==> n in d.tags && d.tags[n] == s.tags[n]
    {
      assert Lookup(d.tags, TagName(c, x, image.host, "")) == Lookup(s.tags, TagName(c, x, image.host, ""));
    }
    forall i | i in d.db.instances && d.db.instances[i].build == x
      ensures Renewed(base, d, i, c, x, images)
    {
      assert Renewed(base, s, i, c, x, images);
      RenewedStays(base, s, d, i, c, x, images);
    }
  }

  lemma UntouchedOn(base: World, s: World, d: World, ch: ChallengeId, todo: set<BuildId>, b: BuildId)
    requires Elsewhere(s, d, ch, b) && AllUntouched(base, s, todo)
    ensures AllUntouched(base, d, todo - {b})
  {
  }

  lemma UntouchedIn(base: World, s: World, todo: set<BuildId>, b: BuildId)
    requires AllUntouched(base, s, todo) && b in todo
    ensures Untouched(base, s, b)
  {
  }

  lemma UndoableOn(base: World, s: World, d: World, ch: ChallengeId, updates: seq<BuildUpdate>, done: set<BuildId>, u: BuildUpdate)
    requires IdsIssued(base) && AllUndoable(base, s, ch, updates, done) && Moves(base, s, d) && Elsewhere(s, d, ch, u.build)
    requires Undoable(base, d, ch, u) && u.build !in done
    requires u.build in d.db.builds && d.db.builds[u.build].output == u.candidate
    ensures AllUndoable(base, d, ch, updates + [u], done + {u.build})
  {
    hide Undoable, IdsIssued, Moves;
    AllStayUndoable(base, s, d, ch, updates);
    forall x | x in updates + [u]
      ensures x in updates || x == u
    {
    }
  }

  lemma UndoableAll(base: World, s: World, ch: ChallengeId, updates: seq<BuildUpdate>, done: set<BuildId>)
    requires AllUndoable(base, s, ch, updates, done)
    ensures forall u | u in updates :: Undoable(base, s, ch, u)
  {
  }

  lemma FitsOn(updates: seq<BuildUpdate>, trails: seq<Trail>, u: BuildUpdate, t: Trail)
    requires TrailsFit(updates, trails) && |t.stages| == |u.cutovers| + 1
    ensures TrailsFit(updates + [u], trails + [t])
  {
  }

  function BuildsOf(db: Db, ch: ChallengeId): (ids: set<BuildId>)
    ensures forall b :: b in ids <==> b in db.builds && db.builds[b].challenge == ch
  {
    set b | b in db.builds && db.builds[b].challenge == ch
  }

  lemma RebuildFirst(base: World, s: World, ch: ChallengeId, g: string)
    requires s.db.instances == base.db.instances && s.db.builds == base.db.builds
    ensures AllUntouched(base, s, BuildsOf(base.db, ch)) && Rebuilt(base, s, {}, g) && AllUndoable(base, s, ch, [], {}) && AllCut(base, [], {})
  {
  }

  lemma BuildsBelong(db: Db, ch: ChallengeId)
    ensures forall b :: b in BuildsOf(db, ch) <==> b in db.builds && db.builds[b].challenge == ch
  {
  }

  /** Rebuilds every build of the challenge.  If one cannot be, all of them are taken back. */
  method RebuildAll(m: Manager, ch: ChallengeId, c: Challenge, buildIds: set<BuildId>, ghost base: World)
    returns (ok: bool, clean: bool, updates: seq<BuildUpdate>, ghost refused: bool)
    requires m.portLow == 0 || m.portLow <= m.portHigh
    requires Sound(base) && Safe(base, m.world, ch) && Tidy(base, m.world) && Undiminished(base, m.world)
    requires m.world.db.instances == base.db.instances && buildIds == BuildsOf(base.db, ch) && DistinctHosts(c.hosts)
    requires m.world.db.builds == base.db.builds && RecordImages(m.world.db, ch) == ImagesOf(c.hosts, c.portMap)
    modifies m
    ensures Safe(base, m.world, ch) && m.world.db.challenges == old(m.world.db.challenges)
    ensures !ok && clean ==> AsBefore(old(m.world), m.world) && (m.reliable ==> Same(old(m.world), m.world))
    ensures m.reliable && Calm(base, old(m.world), ch) ==> clean
    ensures ok ==> Rebuilt(base, m.world, buildIds, c.sourceDigest) && AllUndoable(base, m.world, ch, updates, buildIds)
    ensures ok ==> AllCut(base, updates, buildIds)
    ensures m.reliable && m.fortunate && Readable(c) && !refused ==> ok
    ensures
      var able := Movable(base, old(m.world), m.portLow, m.portHigh, ImagesOf(c.hosts, c.portMap), c.portMap.Keys, InstancesOfBuilds(base.db, buildIds));
      m.reliable && m.fortunate && Readable(c) && able ==>
        !refused && Moved(base, old(m.world), m.world, m.portLow, m.portHigh, ImagesOf(c.hosts, c.portMap), InstancesOfBuilds(base.db, buildIds))
    ensures buildIds == {} ==> ok
    ensures old(m.crashPoints) <= m.crashPoints
    ensures forall d | d in m.crashPoints :: d in old(m.crashPoints) || Safe(base, d, ch)
  {
    hide *;
    ghost var s := m.world;
    refused := false;
    ghost var images, known := ImagesOf(c.hosts, c.portMap), c.portMap.Keys;
    ghost var able := m.reliable && m.fortunate && Readable(c) && Movable(base, s, m.portLow, m.portHigh, images, known, InstancesOfBuilds(base.db, buildIds));
    BuildsBelong(base.db, ch);
    updates := [];
    ghost var trails: seq<Trail> := [];
    RebuildFirst(base, s, ch, c.sourceDigest);
    if able { MovedFirst(base, s, m.portLow, m.portHigh, images, known, InstancesOfBuilds(base.db, buildIds)); }
    NoResidents(base.db);
    ChainFirst(s);
    SoundIds(base);
    clean := true;
    var todo := buildIds;
    assert buildIds - todo == {};
    while todo != {}
      invariant todo <= buildIds
      invariant Safe(base, m.world, ch) && Tidy(base, m.world) && Undiminished(base, m.world)
      invariant Rebuilt(base, m.world, buildIds - todo, c.sourceDigest) && AllUntouched(base, m.world, todo)
      invariant AllUndoable(base, m.world, ch, updates, buildIds - todo) && TrailsFit(updates, trails)
      invariant AllCut(base, updates, buildIds - todo) && RecordImages(m.world.db, ch) == ImagesOf(c.hosts, c.portMap)
      invariant clean ==> Chain(s, updates, trails, m.world)
      invariant m.reliable && Calm(base, s, ch) ==> clean && Calm(base, m.world, ch)
      invariant !refused && m.world.db.challenges == s.db.challenges
      invariant able ==> Movable(base, m.world, m.portLow, m.portHigh, images, known, InstancesOfBuilds(base.db, todo))
      invariant able ==> Moved(base, s, m.world, m.portLow, m.portHigh, images, InstancesOfBuilds(base.db, buildIds - todo))
      invariant old(m.crashPoints) <= m.crashPoints
      invariant forall d | d in m.crashPoints :: d in old(m.crashPoints) || Safe(base, d, ch)
    {
      var b :| b in todo;
      ghost var now := m.world;
      SafeParts(base, now, ch);
      UntouchedIn(base, now, todo, b);
      var r;
      ghost var t;
      ResidentsAre(base, now, ch, b);
      if able { FewerMovable(base, now, m.portLow, m.portHigh, images, known, InstancesOfBuilds(base.db, todo), InstancesOfBuilds(base.db, {b})) by { ResidentsSplit(base.db, todo, b); } }
      r, t, refused := UpdateBuild(m, ch, c, b, base);
      ghost var next := m.world;
      RecordKept(base, now, next, ch);
      if r.Undone? {
        UndoableAll(base, now, ch, updates, buildIds - todo);
        AllStayUndoable(base, now, next, ch, updates);
        ghost var hit := now.running - next.running;
        HaltedTrailsFit(updates, trails, hit);
        if clean && r.clean {
          TakenBackHit(base, now, next, ch, b, updates, m.reliable);
          ChainHalted(s, updates, trails, now, hit);
          ChainSame(Halted(s, hit), updates, HaltedTrails(trails, hit), Halted(now, hit), next);
        }
        var undone := RollbackUpdates(m, updates, HaltedTrails(trails, hit), Halted(s, hit), base, ch);
        if clean && r.clean && undone { HaltedAsBefore(s, m.world, hit); }
        return false, clean && r.clean && undone, updates, refused;
      }
      UndoableOn(base, now, next, ch, updates, buildIds - todo, r.update);
      UntouchedOn(base, now, next, ch, todo, b);
      RebuiltOn(base, now, next, ch, buildIds - todo, b, c.sourceDigest);
      AllCutOn(base, now, ch, updates, buildIds - todo, r.update);
      FitsOn(updates, trails, r.update, t);
      if clean && r.clean { ChainOn(s, updates, trails, now, next, r.update, t); }
      updates, trails, clean := updates + [r.update], trails + [t], clean && r.clean;
      assert buildIds - (todo - {b}) == (buildIds - todo) + {b};
      if able { RestMovable(base, s, now, next, m.portLow, m.portHigh, images, known, buildIds, todo, b); }
      todo := todo - {b};
    }
    assert buildIds - {} == buildIds;
    ok := true;
  }

  lemma ResidentsAre(base: World, now: World, ch: ChallengeId, b: BuildId)
    requires Safe(base, now, ch)
    ensures InstancesOf(now.db, b) == InstancesOfBuilds(base.db, {b})
  {
    hide Sound, WithinDocker, OldOrNew, OtherTags, OtherArtifacts, OthersRun, Whole;
  }

  lemma ResidentsSplit(db: Db, todo: set<BuildId>, b: BuildId)
    requires b in todo
    ensures InstancesOfBuilds(db, todo) == InstancesOfBuilds(db, todo - {b}) + InstancesOfBuilds(db, {b})
    ensures InstancesOfBuilds(db, todo - {b}) !! InstancesOfBuilds(db, {b})
  {
  }

  /** What one build took leaves enough for the others. */
  lemma RestMovable(base: World, s: World, now: World, next: World, low: nat, high: nat, images: seq<HostImage>, known: set<string>,
                    all: set<BuildId>, todo: set<BuildId>, b: BuildId)
    requires todo <= all && Moved(base, s, now, low, high, images, InstancesOfBuilds(base.db, all - todo))
    requires Movable(base, now, low, high, images, known, InstancesOfBuilds(base.db, todo)) && b in todo
    requires Moved(base, now, next, low, high, images, InstancesOfBuilds(base.db, {b}))
    ensures Movable(base, next, low, high, images, known, InstancesOfBuilds(base.db, todo - {b}))
    ensures Moved(base, s, next, low, high, images, InstancesOfBuilds(base.db, (all - todo) + {b}))
  {
    hide Quiet, PublishedNames, Distinguishable, SparePorts, Newcomers;
    ResidentsSplit(base.db, todo, b);
    NewcomersSplit(base.db, images, InstancesOfBuilds(base.db, todo - {b}), InstancesOfBuilds(base.db, {b}));
    ResidentsSplit(base.db, (all - todo) + {b}, b);
    assert (all - todo) + {b} - {b} == all - todo;
    NewcomersSplit(base.db, images, InstancesOfBuilds(base.db, all - todo), InstancesOfBuilds(base.db, {b}));
  }

  lemma NoResidents(db: Db)
    ensures InstancesOfBuilds(db, {}) == {}
  {
  }

  lemma MovedFirst(base: World, s: World, low: nat, high: nat, images: seq<HostImage>, known: set<string>, todo: set<InstanceId>)
    requires Movable(base, s, low, high, images, known, todo)
    ensures Moved(base, s, s, low, high, images, {})
  {
    hide Quiet, SparePorts, Newcomers;
  }

  /** What only removes containers that nobody owns, or touches other rows, moves nothing. */
  lemma MovedStays(base: World, s: World, now: World, d: World, low: nat, high: nat, images: seq<HostImage>, ids: set<InstanceId>)
    requires Moved(base, s, now, low, high, images, ids) && d.db.instances == now.db.instances && (Quiet(now) ==> Quiet(d))
    ensures Moved(base, s, d, low, high, images, ids)
  {
    hide Quiet, Newcomers;
    assert UsedPorts(d.db) == UsedPorts(now.db);
    assert SparePorts(d.db, low, high) == SparePorts(now.db, low, high);
  }

  // ----------------------------------------------------------------- finish

  /** All builds of the challenge are of generation `g`, and its instances run only new
      containers. */
  ghost predicate Converged(base: World, now: World, ch: ChallengeId, updates: seq<BuildUpdate>, g: string) {
    && Rebuilt(base, now, BuildsOf(base.db, ch), g)
    && AllUndoable(base, now, ch, updates, BuildsOf(base.db, ch))
  }

  lemma ConvergedIsNew(base: World, now: World, ch: ChallengeId, g: string)
    requires Sound(base) && Safe(base, now, ch) && Rebuilt(base, now, BuildsOf(base.db, ch), g)
    ensures AllNew(base, now.db, ch)
  {
    hide OwnedOrRetired, BuildsDistinct, FitsRuntime, Tracked, OtherTags, WithinDocker, WhollyOf, RuntimeImages, OldOrNew;
    forall i, c | Belongs(base.db, i, ch) && i in now.db.instances && c in now.db.instances[i].runtime.containers
      ensures c >= base.nextId
    {
      var b := base.db.instances[i].build;
      assert b in BuildsOf(base.db, ch);
      assert NewlyRun(base, now, b);
      assert now.db.instances[i].build == b;
    }
  }

  lemma TrimsKeepsConverged(base: World, s: World, d: World, ch: ChallengeId, updates: seq<BuildUpdate>, u: BuildUpdate, g: string)
    requires Converged(base, s, ch, updates, g) && u in updates && Trims(s, d, u)
    requires IdsIssued(base) && s.nextId <= d.nextId
    ensures Converged(base, d, ch, updates, g)
  {
    hide WhollyOf, RuntimeImages, Undoable, IdsIssued;
    forall b | b in BuildsOf(base.db, ch)
      ensures WhollyOf(d, b, g) && NewlyRun(base, d, b)
    {
      TrimsKeepsGeneration(base, s, d, u, b, g);
    }
    MovesTables(base, s, d);
    AllStayUndoable(base, s, d, ch, updates);
  }

  lemma MovesTables(base: World, s: World, d: World)
    requires d.db.instances == s.db.instances && d.db.challenges == s.db.challenges && s.nextId <= d.nextId
    ensures Moves(base, s, d)
  {
  }

  lemma ConvergedParts(base: World, now: World, ch: ChallengeId, updates: seq<BuildUpdate>, g: string, k: nat)
    requires Converged(base, now, ch, updates, g) && k < |updates|
    ensures Undoable(base, now, ch, updates[k]) && Rebuilt(base, now, BuildsOf(base.db, ch), g)
  {
    hide Undoable;
    assert updates[k] in updates;
  }

  method FinishUpdates(m: Manager, ch: ChallengeId, updates: seq<BuildUpdate>, ghost g: string, ghost base: World) returns (ok: bool)
    requires Sound(base) && Safe(base, m.world, ch) && Converged(base, m.world, ch, updates, g)
    modifies m
    ensures Safe(base, m.world, ch) && Converged(base, m.world, ch, updates, g) && m.world.db.challenges == old(m.world.db.challenges)
    ensures m.world.db.instances == old(m.world.db.instances) && (Quiet(old(m.world)) ==> Quiet(m.world))
    ensures ok ==> forall u | u in updates :: OldGone(m.world, u.cutovers)
    ensures m.reliable ==> ok
    ensures old(m.crashPoints) <= m.crashPoints
    ensures forall d | d in m.crashPoints :: d in old(m.crashPoints) || Safe(base, d, ch)
  {
    hide *;
    SoundIds(base);
    ok := true;
    for k := 0 to |updates|
      invariant Safe(base, m.world, ch) && Converged(base, m.world, ch, updates, g) && m.world.db.challenges == old(m.world.db.challenges)
      invariant m.world.db.instances == old(m.world.db.instances) && (Quiet(old(m.world)) ==> Quiet(m.world))
      invariant ok ==> forall u | u in updates[..k] :: OldGone(m.world, u.cutovers)
      invariant m.reliable ==> ok
      invariant old(m.crashPoints) <= m.crashPoints
      invariant forall d | d in m.crashPoints :: d in old(m.crashPoints) || Safe(base, d, ch)
    {
      ghost var now := m.world;
      ConvergedParts(base, now, ch, updates, g, k);
      ConvergedIsNew(base, now, ch, g);
      var finished := FinishBuildUpdate(m, ch, updates[k], base);
      TrimsIds(now, m.world, updates[k]);
      TrimsQuiet(now, m.world, updates[k]);
      TrimsKeepsConverged(base, now, m.world, ch, updates, updates[k], g);
      TrimsKeepsOldGone(now, m.world, updates[k]);
      ok := ok && finished;
    }
  }

  lemma TrimsQuiet(s: World, d: World, u: BuildUpdate)
    requires Trims(s, d, u)
    ensures d.db.instances == s.db.instances && (Quiet(s) ==> Quiet(d))
  {
    FewerQuiet(s, d);
  }

  lemma TrimsKeepsOldGone(s: World, d: World, u: BuildUpdate)
    requires Trims(s, d, u)
    ensures forall cuts :: OldGone(s, cuts) ==> OldGone(d, cuts)
  {
  }

  // ------------------------------------------------------- interrupted runs

  /** The staged names of the builds in `ids`. */
  ghost predicate Leftover(n: TagName, ch: ChallengeId, ids: set<BuildId>) {
    n.challenge == ch && n.qualifier != "" && n.build in ids
  }

  ghost predicate LeftoverFile(a: ArtifactName, ids: set<BuildId>) {
    !a.Canonical? && a.build in ids
  }

  /** Only names of interrupted runs differ. */
  ghost predicate Swept(s: World, d: World, ch: ChallengeId, ids: set<BuildId>) {
    && d == s.(tags := d.tags, artifacts := d.artifacts)
    && (forall n | !Leftover(n, ch, ids) :: Lookup(d.tags, n) == Lookup(s.tags, n))
    && (forall a | !LeftoverFile(a, ids) :: Lookup(d.artifacts, a) == Lookup(s.artifacts, a))
    && d.tags.Keys <= s.tags.Keys && d.artifacts.Keys <= s.artifacts.Keys
  }

  lemma SweptIsSafe(base: World, s: World, d: World, ch: ChallengeId, ids: set<BuildId>)
    requires Safe(base, s, ch) && Swept(s, d, ch, ids) && ids <= BuildsOf(base.db, ch)
    ensures Safe(base, d, ch)
  {
    hide Safe;
    forall n: TagName | n.challenge != ch ensures Lookup(d.tags, n) == Lookup(s.tags, n) { assert !Leftover(n, ch, ids); }
    forall a: ArtifactName | a.build !in ids ensures Lookup(d.artifacts, a) == Lookup(s.artifacts, a) { assert !LeftoverFile(a, ids); }
    SafeTags(base, s, d, ch);
  }

  lemma SweptKeepsRebuilt(base: World, s: World, d: World, ch: ChallengeId, ids: set<BuildId>, g: string)
    requires Swept(s, d, ch, ids) && Rebuilt(base, s, ids, g)
    ensures Rebuilt(base, d, ids, g)
  {
    hide RuntimeImages, ContainersOfGeneration, Renewed;
    forall b | b in ids
      ensures WhollyOf(d, b, g) && NewlyRun(base, d, b)
    {
      assert WhollyOf(s, b, g) && NewlyRun(base, s, b);
      assert Lookup(d.artifacts, Canonical(b)) == Lookup(s.artifacts, Canonical(b));
      var x := s.db.builds[b].challenge;
      forall image | image in s.db.builds[b].output.images
        ensures var n := TagName(x, b, image.host, ""); n in s.tags && n in d.tags && d.tags[n] == s.tags[n]
      {
        var n := CanonicalTag(x, b, image.host);
        assert !Leftover(n, ch, ids);
        assert Lookup(d.tags, n) == Lookup(s.tags, n);
      }
      forall i | i in d.db.instances && d.db.instances[i].build == b
        ensures Renewed(base, d, i, x, b, s.db.builds[b].output.images)
      {
        RenewedStays(base, s, d, i, x, b, s.db.builds[b].output.images);
      }
    }
  }

  lemma SweptTag(s: World, mid: World, ch: ChallengeId, ids: set<BuildId>, n: TagName)
    requires Swept(s, mid, ch, ids) && Leftover(n, ch, ids)
    ensures Swept(s, mid.(tags := mid.tags - {n}), ch, ids)
  {
  }

  lemma SweptFile(s: World, mid: World, ch: ChallengeId, ids: set<BuildId>, a: ArtifactName)
    requires Swept(s, mid, ch, ids) && LeftoverFile(a, ids)
    ensures Swept(s, mid.(artifacts := mid.artifacts - {a}), ch, ids)
  {
  }

  lemma SweptRefl(s: World, ch: ChallengeId, ids: set<BuildId>)
    ensures Swept(s, s, ch, ids)
  {
  }

  /** Removes the staged names that an interrupted update of these builds left behind. */
  method CleanupInterruptedBuildResources(m: Manager, ch: ChallengeId, ids: set<BuildId>, ghost base: World) returns (ok: bool)
    requires Safe(base, m.world, ch) && ids <= BuildsOf(base.db, ch)
    modifies m
    ensures Safe(base, m.world, ch) && Swept(old(m.world), m.world, ch, ids)
    ensures ok ==> forall n | n in m.world.tags :: !Leftover(n, ch, ids)
    ensures ok ==> forall a | a in m.world.artifacts :: !LeftoverFile(a, ids)
    ensures m.reliable ==> ok
    ensures old(m.crashPoints) <= m.crashPoints
    ensures forall d | d in m.crashPoints :: d in old(m.crashPoints) || Safe(base, d, ch)
  {
    hide Safe, Swept;
    ghost var s := m.world;
    SweptRefl(s, ch, ids);
    SweptIsSafe(base, s, s, ch, ids);
    if ids == {} {
      return true;
    }
    var listed := m.Query();
    ok := listed;
    var names := if listed then set n | n in m.world.tags && n.challenge == ch && n.qualifier != "" && n.build in ids else {};
    while names != {}
      invariant forall n | n in names :: Leftover(n, ch, ids)
      invariant Swept(s, m.world, ch, ids) && Safe(base, m.world, ch)
      invariant ok ==> forall n | n in m.world.tags && Leftover(n, ch, ids) :: n in names
      invariant m.reliable ==> ok
      invariant old(m.crashPoints) <= m.crashPoints
      invariant forall d | d in m.crashPoints :: d in old(m.crashPoints) || Safe(base, d, ch)
    {
      var n :| n in names;
      names := names - {n};
      ghost var mid := m.world;
      SweptTag(s, mid, ch, ids, n);
      SweptIsSafe(base, s, mid.(tags := mid.tags - {n}), ch, ids);
      var r := m.ImageRemove(n);
      ok := ok && r != Failed;
    }
    listed := m.Query();
    ok := ok && listed;
    var files := if listed then set a | a in m.world.artifacts && !a.Canonical? && a.build in ids else {};
    while files != {}
      invariant forall a | a in files :: LeftoverFile(a, ids)
      invariant Swept(s, m.world, ch, ids) && Safe(base, m.world, ch)
      invariant ok ==> forall n | n in m.world.tags :: !Leftover(n, ch, ids)
      invariant ok ==> forall a | a in m.world.artifacts && LeftoverFile(a, ids) :: a in files
      invariant m.reliable ==> ok
      invariant old(m.crashPoints) <= m.crashPoints
      invariant forall d | d in m.crashPoints :: d in old(m.crashPoints) || Safe(base, d, ch)
    {
      var a :| a in files;
      files := files - {a};
      ghost var mid := m.world;
      SweptFile(s, mid, ch, ids, a);
      SweptIsSafe(base, s, mid.(artifacts := mid.artifacts - {a}), ch, ids);
      var r := m.FileRemove(a);
      ok := ok && r != Failed;
    }
  }

  // ---------------------------------------------------------- one challenge

  ghost predicate NoLeftovers(w: World, ch: ChallengeId, ids: set<BuildId>) {
    && (forall n | n in w.tags :: !Leftover(n, ch, ids))
    && (forall a | a in w.artifacts :: !LeftoverFile(a, ids))
  }

  /** What each result says about the world. */
  ghost predicate Outcome(base: World, now: World, ch: ChallengeId, c: Challenge, r: UpdateResult) {
    match r
    case Refused => now == base
    case Refreshed => ch in base.db.challenges && now == base.(db := WithChallenge(base.db, ch, c))
    case RolledBack(clean) =>
      && ch in base.db.challenges && Within(base, now, ch)
      && ch in now.db.challenges && now.db.challenges[ch] == base.db.challenges[ch]
      && (clean ==> AsBefore(base, now))
    case Unfinished => Safe(base, now, ch) && ch in now.db.challenges && now.db.challenges[ch] == c.(sourceDigest := "")
    case Completed =>
      && ch in base.db.challenges && Within(base, now, ch)
      && ch in now.db.challenges && now.db.challenges[ch] == c
      && Rebuilt(base, now, BuildsOf(base.db, ch), c.sourceDigest)
      && OldRemoved(base, now, ch)
      && NoLeftovers(now, ch, BuildsOf(base.db, ch))
  }

  /** After every result but a rollback with a failed undo call, records still speak for their
      generation. */
  lemma OutcomeConsistent(base: World, now: World, ch: ChallengeId, c: Challenge, r: UpdateResult)
    requires Sound(base) && Consistent(base) && Outcome(base, now, ch, c, r) && r != RolledBack(false)
    requires r.Refreshed? ==> ch in base.db.challenges && c.sourceDigest == base.db.challenges[ch].sourceDigest
    ensures Consistent(now)
  {
    hide Sound, Within, Same, Safe, Rebuilt, NoLeftovers, Generation;
    match r {
      case Refused =>
      case Refreshed => RefreshedConsistent(base, ch, c);
      case RolledBack(clean) => SameGeneration(base, now);
      case Unfinished => SafeIsConsistent(base, ch);
      case Completed =>
        forall other: ChallengeId ensures Generation(now, other) {
          if other != ch { OthersKeepGeneration(base, now, ch, other); } else { CompletedGeneration(base, now, ch, c); }
        }
    }
  }

  lemma RefreshedConsistent(base: World, ch: ChallengeId, c: Challenge)
    requires Consistent(base) && ch in base.db.challenges && c.sourceDigest == base.db.challenges[ch].sourceDigest
    ensures Consistent(base.(db := WithChallenge(base.db, ch, c)))
  {
    hide Consistent, RunsNew;
    var d := base.(db := WithChallenge(base.db, ch, c));
    forall b | b in d.db.builds ensures KeepsBuild(base, d, b) { }
    KeptConsistent(base, d);
  }

  lemma CompletedGeneration(base: World, now: World, ch: ChallengeId, c: Challenge)
    requires Within(base, now, ch) && ch in now.db.challenges && now.db.challenges[ch] == c
    requires Rebuilt(base, now, BuildsOf(base.db, ch), c.sourceDigest)
    ensures Generation(now, ch)
  {
    hide OfGeneration, NewlyRun, WithinDocker, OthersRun, OtherTags, OtherArtifacts, OldOrNew;
    forall b | b in now.db.builds && now.db.builds[b].challenge == ch
      ensures BuildSpokenFor(now, b, c.sourceDigest)
    {
      assert BuildKey(now.db.builds[b]) == BuildKey(base.db.builds[b]);
      assert b in BuildsOf(base.db, ch);
      assert WhollyOf(now, b, c.sourceDigest);
    }
  }

  /** After a completed update every instance of the challenge runs: one container per image of
      its rebuilt build.  It publishes every name of the new record but those of the builder,
      each on the host port it had before if it had one. */
  lemma CompletedRuns(base: World, now: World, ch: ChallengeId, c: Challenge, i: InstanceId)
    requires Sound(base) && Sound(now) && Outcome(base, now, ch, c, Completed) && Belongs(base.db, i, ch)
    ensures Belongs(now.db, i, ch)
    ensures
      var rt, had := now.db.instances[i].runtime, base.db.instances[i].runtime;
      && (forall n :: n in rt.ports <==> n in c.portMap && c.portMap[n].host != "builder")
      && (forall n | n in rt.ports && n in had.ports :: rt.ports[n] == had.ports[n])
    ensures
      var b, rt := now.db.instances[i].build, now.db.instances[i].runtime;
      && rt.containers <= now.containers.Keys && rt.containers <= now.running
      && rt.containers !! base.db.instances[i].runtime.containers
      && Runs(now.tags, now.containers, ch, b, now.db.builds[b].output.images, base.db.instances[i].runtime.ports, rt)
      && ContainersOfGeneration(now.containers, rt.containers, c.sourceDigest)
  {
    hide *;
    CompletedBuild(base, now, ch, c, i);
    CompletedInstance(base, now, ch, i, now.db.instances[i].build);
    CompletedNames(base, now, ch, c, i);
  }

  lemma CompletedNames(base: World, now: World, ch: ChallengeId, c: Challenge, i: InstanceId)
    requires Sound(base) && Sound(now) && Outcome(base, now, ch, c, Completed) && Belongs(base.db, i, ch)
    requires i in now.db.instances && i in base.db.instances && now.db.instances[i].build == base.db.instances[i].build && now.db.instances[i].build in now.db.builds
    requires
      var b := now.db.instances[i].build;
      Runs(now.tags, now.containers, ch, b, now.db.builds[b].output.images, base.db.instances[i].runtime.ports, now.db.instances[i].runtime)
    ensures
      var rt, had := now.db.instances[i].runtime, base.db.instances[i].runtime;
      && (forall n :: n in rt.ports <==> n in c.portMap && c.portMap[n].host != "builder")
      && (forall n | n in rt.ports && n in had.ports :: rt.ports[n] == had.ports[n])
  {
    hide Sound, WhollyOf, Renewed, NoLeftovers, OldRemoved, Within, ImagesOf, PublishesNames, RunsImages;
    var b := base.db.instances[i].build;
    assert b in BuildsOf(base.db, ch) && NewlyRun(base, now, b);
    SameChallenge(base, now, ch, b);
    SoundRecordable(now, ch);
    AllPublished(now.db.instances[i].runtime.ports, ImagesOf(c.hosts, c.portMap));
    PublishedOf(c);
  }

  lemma SameChallenge(base: World, now: World, ch: ChallengeId, b: BuildId)
    requires Within(base, now, ch) && b in base.db.builds && base.db.builds[b].challenge == ch && b in now.db.builds
    ensures now.db.builds[b].challenge == ch
  {
    hide OthersRun, OtherTags, OtherArtifacts, WithinDocker, OldOrNew;
    assert BuildKey(now.db.builds[b]) == BuildKey(base.db.builds[b]);
  }

  lemma SoundRecordable(now: World, ch: ChallengeId)
    requires Sound(now) && ch in now.db.challenges
    ensures Recordable(now.db.challenges[ch])
  {
  }

  lemma CompletedBuild(base: World, now: World, ch: ChallengeId, c: Challenge, i: InstanceId)
    requires Sound(base) && Outcome(base, now, ch, c, Completed) && Belongs(base.db, i, ch)
    ensures i in base.db.instances && i in now.db.instances && now.db.instances[i].build in now.db.builds
    ensures Within(base, now, ch) && Belongs(now.db, i, ch) && now.db.instances[i].build == base.db.instances[i].build
    ensures Renewed(base, now, i, ch, now.db.instances[i].build, now.db.builds[now.db.instances[i].build].output.images)
    ensures ContainersOfGeneration(now.containers, now.db.instances[i].runtime.containers, c.sourceDigest)
  {
    hide Sound, Renewed, NoLeftovers, OldRemoved, OthersRun, OtherTags, OtherArtifacts, WithinDocker, OldOrNew, TagsOf, TagsOfGeneration, ContainersOfGeneration;
    var b := base.db.instances[i].build;
    assert b in BuildsOf(base.db, ch);
    assert WhollyOf(now, b, c.sourceDigest) && NewlyRun(base, now, b);
    assert BuildKey(now.db.builds[b]) == BuildKey(base.db.builds[b]);
  }

  lemma CompletedInstance(base: World, now: World, ch: ChallengeId, i: InstanceId, b: BuildId)
    requires Sound(base) && Within(base, now, ch) && i in base.db.instances && Belongs(now.db, i, ch) && b == now.db.instances[i].build
    requires Renewed(base, now, i, ch, b, now.db.builds[b].output.images)
    ensures
      var rt := now.db.instances[i].runtime;
      && rt.containers <= now.containers.Keys && rt.containers <= now.running
      && rt.containers !! base.db.instances[i].runtime.containers
      && Runs(now.tags, now.containers, ch, b, now.db.builds[b].output.images, base.db.instances[i].runtime.ports, rt)
  {
    hide Runs, WithinTables, OthersRun, OtherTags, OtherArtifacts, FitsRuntime, BuildsDistinct, OwnedOrRetired, Tracked, RuntimeImages, Constraints;
  }

  lemma SafeHasChallenge(base: World, s: World, ch: ChallengeId)
    requires Safe(base, s, ch)
    ensures ch in s.db.challenges && ch in base.db.challenges && Constraints(s.db) && Sound(s) && Within(base, s, ch)
  {
    hide Constraints, WithinDocker, OtherTags, OldOrNew;
  }

  lemma RestoredOutcome(base: World, marked: World, s: World, ch: ChallengeId, c: Challenge, clean: bool)
    requires ch in base.db.challenges && Safe(base, s, ch) && Constraints(WithChallenge(s.db, ch, base.db.challenges[ch]))
    requires marked == base.(db := WithChallenge(base.db, ch, InProgress(c))) && (clean ==> AsBefore(marked, s))
    ensures
      var d := s.(db := WithChallenge(s.db, ch, base.db.challenges[ch]));
      Sound(d) && Outcome(base, d, ch, c, RolledBack(clean)) && (clean && Same(marked, s) ==> Same(base, d))
  {
    hide Sound, Within, Constraints;
    var d := s.(db := WithChallenge(s.db, ch, base.db.challenges[ch]));
    SoundRecord(s, ch, base.db.challenges[ch]);
    WithinRecord(base, s, ch, base.db.challenges[ch]);
    if clean {
      assert d.db.challenges == base.db.challenges;
      assert AsBefore(base, d) && (Same(marked, s) ==> Same(base, d));
    }
  }

  /** Puts the previous record of a challenge back. */
  method RestoreChallenge(m: Manager, ch: ChallengeId, c: Challenge, previous: Challenge, clean: bool, ghost marked: World, ghost base: World)
    returns (r: UpdateResult)
    requires Sound(base) && Safe(base, m.world, ch) && ch in base.db.challenges && previous == base.db.challenges[ch]
    requires marked == base.(db := WithChallenge(base.db, ch, InProgress(c))) && (clean ==> AsBefore(marked, m.world))
    requires m.world.db.challenges == marked.db.challenges
    modifies m
    ensures r == Unfinished || r == RolledBack(clean)
    ensures r == RolledBack(true) && Same(marked, old(m.world)) ==> Same(base, m.world)
    ensures Sound(m.world) && Outcome(base, m.world, ch, c, r)
    ensures m.reliable ==> r == RolledBack(clean)
    ensures old(m.crashPoints) <= m.crashPoints
    ensures forall d | d in m.crashPoints :: d in old(m.crashPoints) || Safe(base, d, ch) || d == m.world
  {
    hide *;
    ghost var s := m.world;
    SafeHasChallenge(base, s, ch);
    PreviousHosts(base, ch);
    ChallengeConstraints(s.db, ch, previous);
    StillMarked(base, marked, s, ch, c);
    UnfinishedOutcome(base, s, ch, c);
    var read := m.Query();
    if !read {
      return Unfinished;
    }
    var ok := m.Commit(WithChallenge(m.world.db, ch, previous));
    if !ok {
      return Unfinished;
    }
    RestoredOutcome(base, marked, s, ch, c, clean);
    r := RolledBack(clean);
  }

  /** As long as nobody writes it, the record is the new one with its source digest blank. */
  lemma StillMarked(base: World, marked: World, now: World, ch: ChallengeId, c: Challenge)
    requires marked == base.(db := WithChallenge(base.db, ch, InProgress(c))) && now.db.challenges == marked.db.challenges
    ensures ch in now.db.challenges && now.db.challenges[ch] == c.(sourceDigest := "")
  {
  }

  lemma PreviousHosts(base: World, ch: ChallengeId)
    requires Sound(base) && ch in base.db.challenges
    ensures Recordable(base.db.challenges[ch])
  {
  }

  lemma UnfinishedOutcome(base: World, now: World, ch: ChallengeId, c: Challenge)
    requires Safe(base, now, ch) && ch in now.db.challenges && now.db.challenges[ch] == c.(sourceDigest := "")
    ensures Outcome(base, now, ch, c, Unfinished)
  {
  }

  lemma RefusedOutcome(base: World, ch: ChallengeId, c: Challenge)
    ensures Outcome(base, base, ch, c, Refused)
  {
  }

  lemma RefreshedOutcome(base: World, ch: ChallengeId, c: Challenge)
    requires Sound(base) && ch in base.db.challenges && Constraints(WithChallenge(base.db, ch, c))
    ensures
      var d := base.(db := WithChallenge(base.db, ch, c));
      Sound(d) && Outcome(base, d, ch, c, Refreshed)
  {
    hide Sound, Constraints;
    SoundRecord(base, ch, c);
  }

  lemma CompletedOutcome(base: World, s: World, ch: ChallengeId, c: Challenge)
    requires Safe(base, s, ch) && ch in base.db.challenges && Constraints(WithChallenge(s.db, ch, c))
    requires Rebuilt(base, s, BuildsOf(base.db, ch), c.sourceDigest) && NoLeftovers(s, ch, BuildsOf(base.db, ch)) && OldRemoved(base, s, ch)
    requires ch in s.db.challenges && RecordImages(s.db, ch) == ImagesOf(c.hosts, c.portMap)
    ensures
      var d := s.(db := WithChallenge(s.db, ch, c));
      Sound(d) && Outcome(base, d, ch, c, Completed)
  {
    hide Sound, Within, Constraints;
    SoundRecord(s, ch, c);
    WithinRecord(base, s, ch, c);
    RecordKeepsRebuilt(base, s, ch, c, BuildsOf(base.db, ch), c.sourceDigest);
  }

  lemma RecordKeepsRebuilt(base: World, s: World, ch: ChallengeId, c: Challenge, ids: set<BuildId>, g: string)
    requires Rebuilt(base, s, ids, g) && ch in s.db.challenges && RecordImages(s.db, ch) == ImagesOf(c.hosts, c.portMap)
    ensures Rebuilt(base, s.(db := WithChallenge(s.db, ch, c)), ids, g)
  {
    hide RuntimeImages, ContainersOfGeneration, TagsOf, ImagesOf, Runs;
    var d := s.(db := WithChallenge(s.db, ch, c));
    assert forall x | x != ch :: RecordImages(d.db, x) == RecordImages(s.db, x);
    forall b | b in ids
      ensures WhollyOf(d, b, g) && NewlyRun(base, d, b)
    {
      assert WhollyOf(s, b, g) && NewlyRun(base, s, b);
    }
  }

  lemma NothingLeft(w: World, ch: ChallengeId, ids: set<BuildId>)
    requires forall n | n in w.tags :: !Leftover(n, ch, ids)
    requires forall a | a in w.artifacts :: !LeftoverFile(a, ids)
    ensures NoLeftovers(w, ch, ids)
  {
  }

  lemma ConvergedFrom(base: World, now: World, ch: ChallengeId, updates: seq<BuildUpdate>, g: string)
    ensures Rebuilt(base, now, BuildsOf(base.db, ch), g) && AllUndoable(base, now, ch, updates, BuildsOf(base.db, ch)) <==>
      Converged(base, now, ch, updates, g)
  {
  }

  lemma NothingToRebuild(base: World, now: World, ch: ChallengeId, g: string)
    requires BuildsOf(base.db, ch) == {}
    ensures Rebuilt(base, now, {}, g) && OldRemoved(base, now, ch)
  {
    assert forall i | Belongs(base.db, i, ch) :: base.db.instances[i].build in BuildsOf(base.db, ch);
  }

  lemma SweptKeepsRecords(s: World, d: World, ch: ChallengeId, ids: set<BuildId>)
    requires Swept(s, d, ch, ids)
    ensures d.db == s.db
  {
  }

  lemma SweptKeepsOldRemoved(base: World, s: World, d: World, ch: ChallengeId, ids: set<BuildId>)
    requires OldRemoved(base, s, ch) && Swept(s, d, ch, ids)
    ensures OldRemoved(base, d, ch)
  {
  }

  /**
   Updates one challenge.  With `rebuild`, the record carries an empty source digest from the
   first transaction to the last, so a run that stops in between is seen as unfinished.
   */
  method UpdateChallenge(m: Manager, ch: ChallengeId, c: Challenge, rebuild: bool, preflight: bool) returns (r: UpdateResult, ghost refused: bool)
    requires m.portLow == 0 || m.portLow <= m.portHigh
    requires Sound(m.world)
    modifies m
    ensures Sound(m.world) && Outcome(old(m.world), m.world, ch, c, r)
    ensures if rebuild then !r.Refreshed? else r.Refused? || r.Refreshed?
    ensures m.reliable && Calm(old(m.world), old(m.world), ch) ==> r != Unfinished && r != RolledBack(false)
    ensures m.reliable && r == RolledBack(true) ==> Same(old(m.world), m.world)
    ensures m.reliable && (m.fortunate || !preflight) && ch in old(m.world.db.challenges) && Recordable(c) ==> !r.Refused?
    ensures m.reliable && !r.Refused? && BuildsOf(old(m.world.db), ch) == {} ==> r.Refreshed? || r == Completed
    ensures m.reliable && m.fortunate && !r.Refused? && Readable(c) && !refused ==> r.Refreshed? || r == Completed
    ensures m.reliable && m.fortunate && !r.Refused? && Readable(c) && CanMoveAll(old(m.world), ch, c, m.portLow, m.portHigh) ==>
      !refused && (rebuild ==> AllMoved(old(m.world), m.world, ch, c, m.portLow, m.portHigh))
    ensures old(m.crashPoints) <= m.crashPoints
    ensures forall d | d in m.crashPoints ::
      d in old(m.crashPoints) || d == old(m.world) || Safe(old(m.world), d, ch) || d == m.world
  {
    hide *;
    ghost var base := m.world;
    refused := false;
    RefusedOutcome(base, ch, c);
    SoundParts(base);
    SameHosts(c);
    if ch in base.db.challenges && Recordable(c) {
      ChallengeConstraints(base.db, ch, if rebuild then InProgress(c) else c);
    }
    var read := m.Query();
    if !read || ch !in m.world.db.challenges {
      return Refused, refused;
    }
    var previous := m.world.db.challenges[ch];
    if preflight {
      var supported := m.Outside();
      if !supported {
        return Refused, refused;
      }
    }
    var ok := m.Commit(WithChallenge(m.world.db, ch, if rebuild then InProgress(c) else c));
    if !ok {
      return Refused, refused;
    }
    if !rebuild {
      RefreshedOutcome(base, ch, c);
      return Refreshed, refused;
    }
    ghost var marked := m.world;
    ghost var low, high := m.portLow, m.portHigh;
    ghost var able := m.reliable && m.fortunate && Readable(c) && CanMoveAll(base, ch, c, low, high);
    MarkedIsSafe(base, ch, c);
    ConstrainedHosts(base.db, ch, InProgress(c));
    SameHosts(c);
    SameNow(marked);
    SameAsBefore(marked, marked);

    read := m.Query();
    if !read {
      r := RestoreChallenge(m, ch, c, previous, true, marked, base);
      return;
    }
    var buildIds := BuildsOf(m.world.db, ch);
    SameBuilds(m.world.db, base.db, ch);
    SureToMove(base, marked, ch, c, m.portLow, m.portHigh);
    var updates: seq<BuildUpdate> := [];
    if buildIds != {} {
      var readable := m.Outside();
      if !readable {
        r := RestoreChallenge(m, ch, c, previous, true, marked, base);
        return;
      }
      var clean;
      ok, clean, updates, refused := RebuildAll(m, ch, c, buildIds, base);
      if !ok {
        r := RestoreChallenge(m, ch, c, previous, clean, marked, base);
        return;
      }
      ghost var rebuilt := m.world;
      if able { MovedAll(base, marked, rebuilt, ch, c, low, high, buildIds); }
      ConvergedFrom(base, m.world, ch, updates, c.sourceDigest);
      var finished := FinishUpdates(m, ch, updates, c.sourceDigest, base);
      ConvergedFrom(base, m.world, ch, updates, c.sourceDigest);
      if !finished {
        StillMarked(base, marked, m.world, ch, c);
        UnfinishedOutcome(base, m.world, ch, c);
        SafeHasChallenge(base, m.world, ch);
        return Unfinished, refused;
      }
      UndoableAll(base, m.world, ch, updates, buildIds);
      AllOldRemoved(base, m.world, ch, updates);
      if able { StillMoved(base, rebuilt, m.world, ch, c, low, high); }
    } else {
      if able { NothingMoved(base, marked, ch, c, low, high); }
      NothingToRebuild(base, m.world, ch, c.sourceDigest);
    }
    ghost var finishedAt := m.world;
    var swept := CleanupInterruptedBuildResources(m, ch, buildIds, base);
    ghost var s := m.world;
    SweptKeepsRebuilt(base, finishedAt, s, ch, buildIds, c.sourceDigest);
    SweptKeepsOldRemoved(base, finishedAt, s, ch, buildIds);
    SweptKeepsRecords(finishedAt, s, ch, buildIds);
    StillMarked(base, marked, s, ch, c);
    UnfinishedOutcome(base, s, ch, c);
    SafeHasChallenge(base, s, ch);
    ChallengeConstraints(s.db, ch, c);
    if !swept {
      return Unfinished, refused;
    }
    SameRecordImages(marked, s, ch);
    NothingLeft(s, ch, buildIds);
    ok := m.Commit(WithChallenge(m.world.db, ch, c));
    if !ok {
      return Unfinished, refused;
    }
    CompletedOutcome(base, s, ch, c);
    if able {
      SweptQuiet(finishedAt, s, m.world, ch, buildIds, c);
      StillMoved(base, finishedAt, m.world, ch, c, low, high);
    }
    r := Completed;
  }

  ghost function Residents(db: Db, ch: ChallengeId): set<InstanceId> {
    InstancesOfBuilds(db, BuildsOf(db, ch))
  }

  /** All instances of the challenge have been moved: only owned containers run still, and new
      names have taken one spare port each. */
  ghost predicate AllMoved(s: World, d: World, ch: ChallengeId, c: Challenge, low: nat, high: nat) {
    Moved(s, s, d, low, high, ImagesOf(c.hosts, c.portMap), Residents(s.db, ch))
  }

  lemma MovedAll(base: World, marked: World, d: World, ch: ChallengeId, c: Challenge, low: nat, high: nat, ids: set<BuildId>)
    requires marked == base.(db := WithChallenge(base.db, ch, InProgress(c))) && ids == BuildsOf(base.db, ch)
    requires Moved(base, marked, d, low, high, ImagesOf(c.hosts, c.portMap), InstancesOfBuilds(base.db, ids))
    ensures AllMoved(base, d, ch, c, low, high)
  {
    hide Quiet, Newcomers;
    assert UsedPorts(marked.db) == UsedPorts(base.db);
    assert SparePorts(marked.db, low, high) == SparePorts(base.db, low, high);
  }

  lemma NothingMoved(base: World, marked: World, ch: ChallengeId, c: Challenge, low: nat, high: nat)
    requires marked == base.(db := WithChallenge(base.db, ch, InProgress(c))) && CanMoveAll(base, ch, c, low, high)
    ensures AllMoved(base, marked, ch, c, low, high)
  {
    hide Quiet, Newcomers;
    assert Quiet(base);
    SameRowsQuiet(base, marked);
    assert UsedPorts(marked.db) == UsedPorts(base.db);
    assert SparePorts(marked.db, low, high) == SparePorts(base.db, low, high);
  }

  lemma StillMoved(base: World, s: World, d: World, ch: ChallengeId, c: Challenge, low: nat, high: nat)
    requires AllMoved(base, s, ch, c, low, high) && d.db.instances == s.db.instances && (Quiet(s) ==> Quiet(d))
    ensures AllMoved(base, d, ch, c, low, high)
  {
    hide Moved;
    MovedStays(base, base, s, d, low, high, ImagesOf(c.hosts, c.portMap), Residents(base.db, ch));
  }

  lemma SweptQuiet(s: World, d: World, e: World, ch: ChallengeId, ids: set<BuildId>, c: Challenge)
    requires Swept(s, d, ch, ids) && e == d.(db := WithChallenge(d.db, ch, c))
    ensures e.db.instances == s.db.instances && (Quiet(s) ==> Quiet(e))
  {
    SameRowsQuiet(s, e);
  }

  /** Every instance of the challenge can be moved to what `c` asks for: its containers are
      there, only owned containers run, and there are ports for all new names. */
  ghost predicate CanMoveAll(s: World, ch: ChallengeId, c: Challenge, low: nat, high: nat) {
    Movable(s, s, low, high, ImagesOf(c.hosts, c.portMap), c.portMap.Keys, Residents(s.db, ch))
  }

  lemma SureToMove(base: World, marked: World, ch: ChallengeId, c: Challenge, low: nat, high: nat)
    requires marked == base.(db := WithChallenge(base.db, ch, InProgress(c)))
    ensures CanMoveAll(base, ch, c, low, high) ==>
      Movable(base, marked, low, high, ImagesOf(c.hosts, c.portMap), c.portMap.Keys, InstancesOfBuilds(base.db, BuildsOf(base.db, ch)))
  {
    hide Movable;
    MovableStays(base, base, marked, low, high, ImagesOf(c.hosts, c.portMap), c.portMap.Keys, InstancesOfBuilds(base.db, BuildsOf(base.db, ch)));
  }

  lemma SameRecordImages(marked: World, s: World, ch: ChallengeId)
    requires s.db.challenges == marked.db.challenges
    ensures RecordImages(s.db, ch) == RecordImages(marked.db, ch)
  {
  }

  lemma SoundParts(base: World)
    requires Sound(base)
    ensures Constraints(base.db)
  {
  }

  lemma SameHosts(c: Challenge)
    ensures InProgress(c).hosts == c.hosts && (Recordable(InProgress(c)) <==> Recordable(c))
  {
  }

  lemma SameBuilds(s: Db, base: Db, ch: ChallengeId)
    ensures s.builds == base.builds ==> BuildsOf(s, ch) == BuildsOf(base, ch)
  {
  }

  // ------------------------------------------------------ a list of updates

  datatype Change = Change(id: ChallengeId, record: Challenge)

  /** A metadata-only change keeps the source digest on record. */
  ghost predicate KeepsDigests(db: Db, changes: seq<Change>) {
    forall x | x in changes && x.id in db.challenges :: x.record.sourceDigest == db.challenges[x.id].sourceDigest
  }

  ghost predicate UndoneCleanly(results: seq<UpdateResult>) {
    forall r | r in results :: r != RolledBack(false)
  }

  ghost predicate DistinctIds(changes: seq<Change>) {
    forall a, b | 0 <= a < b < |changes| :: changes[a].id != changes[b].id
  }

  ghost predicate SameRecord(s: Db, d: Db, k: ChallengeId) {
    (k in s.challenges <==> k in d.challenges) && (k in s.challenges ==> d.challenges[k] == s.challenges[k])
  }

  /** A change either took effect, or left the record as it was, or left its mark. */
  ghost predicate RecordAfter(s: Db, d: Db, x: Change, r: UpdateResult) {
    match r
    case Refused => SameRecord(s, d, x.id)
    case RolledBack(_) => SameRecord(s, d, x.id)
    case Refreshed => x.id in d.challenges && d.challenges[x.id] == x.record
    case Completed => x.id in d.challenges && d.challenges[x.id] == x.record
    case Unfinished => Marked(d, x.id)
  }

  ghost predicate Among(k: ChallengeId, changes: seq<Change>, n: nat)
    requires n <= |changes|
  {
    exists j :: 0 <= j < n && changes[j].id == k
  }

  /** Every record is what the results so far say. */
  ghost predicate RecordsAfter(s: Db, d: Db, changes: seq<Change>, results: seq<UpdateResult>)
    requires |results| <= |changes|
  {
    && d.challenges.Keys == s.challenges.Keys
    && (forall j | 0 <= j < |results| :: RecordAfter(s, d, changes[j], results[j]))
    && (forall k | !Among(k, changes, |results|) :: SameRecord(s, d, k))
  }

  lemma OutcomeRecords(base: World, now: World, x: Change, r: UpdateResult)
    requires Outcome(base, now, x.id, x.record, r)
    ensures now.db.challenges.Keys == base.db.challenges.Keys && RecordAfter(base.db, now.db, x, r)
    ensures forall k | k != x.id :: SameRecord(base.db, now.db, k)
  {
    hide Sound, WithinDocker, OthersRun, OtherTags, OtherArtifacts, OldOrNew, Belongs, Rebuilt, NoLeftovers, OldRemoved;
  }

  lemma RecordsOn(s: Db, mid: Db, d: Db, changes: seq<Change>, results: seq<UpdateResult>, r: UpdateResult)
    requires |results| < |changes| && RecordsAfter(s, mid, changes, results) && DistinctIds(changes)
    requires d.challenges.Keys == mid.challenges.Keys && RecordAfter(mid, d, changes[|results|], r)
    requires forall k | k != changes[|results|].id :: SameRecord(mid, d, k)
    ensures RecordsAfter(s, d, changes, results + [r])
  {
    var x := changes[|results|];
    assert !Among(x.id, changes, |results|);
    forall j | 0 <= j < |results| ensures RecordAfter(s, d, changes[j], results[j]) {
      assert SameRecord(mid, d, changes[j].id);
    }
    forall k | !Among(k, changes, |results| + 1) ensures SameRecord(s, d, k) {
      assert k != x.id && !Among(k, changes, |results|);
      assert SameRecord(s, mid, k) && SameRecord(mid, d, k);
    }
  }

  lemma OutcomeKeepsDigests(base: World, now: World, changes: seq<Change>, x: Change, r: UpdateResult)
    requires KeepsDigests(base.db, changes) && x in changes && Outcome(base, now, x.id, x.record, r)
    requires r.Refused? || r.Refreshed?
    ensures KeepsDigests(now.db, changes)
  {
  }

  /** No row comes or goes, no target changes, and what is finished stays finished. */
  lemma WithinOrderly(base: World, d: World, ch: ChallengeId)
    requires Orderly(base) && Sound(d) && Within(base, d, ch)
    ensures Orderly(d)
  {
    hide Sound, WithinDocker, OthersRun, OtherTags, OtherArtifacts, OldOrNew, Belongs;
    forall name: string | !IsManual(name)
      ensures ActiveComplete(d.db, name)
    {
      assert ActiveComplete(base.db, name);
      forall b | b in d.db.builds ensures BuildKey(d.db.builds[b]) == BuildKey(base.db.builds[b]) { }
    }
  }

  lemma OutcomeOrderly(base: World, now: World, ch: ChallengeId, c: Challenge, r: UpdateResult)
    requires Orderly(base) && Sound(now) && Outcome(base, now, ch, c, r)
    ensures Orderly(now)
  {
    hide Sound, Within, Same, Rebuilt, NoLeftovers, OldRemoved, ActiveComplete;
    match r {
      case Refused =>
      case Refreshed =>
        forall name: string | !IsManual(name) ensures ActiveComplete(now.db, name) { SameActive(base.db, now.db, name); }
      case RolledBack(_) => WithinOrderly(base, now, ch);
      case Unfinished => WithinOrderly(base, now, ch);
      case Completed => WithinOrderly(base, now, ch);
    }
  }

  lemma SameActive(s: Db, d: Db, name: string)
    requires d.builds == s.builds
    ensures ActiveComplete(s, name) ==> ActiveComplete(d, name)
  {
  }

  lemma ReachedConsistently(base: World, ch: ChallengeId)
    requires Orderly(base)
    ensures forall d :: Safe(base, d, ch) ==> Orderly(d)
    ensures Consistent(base) ==> forall d :: Safe(base, d, ch) ==> Consistent(d)
  {
    hide Sound, Within, Consistent, Marked;
    if Consistent(base) { SafeIsConsistent(base, ch); }
    forall d | Safe(base, d, ch) ensures Orderly(d) { WithinOrderly(base, d, ch); }
  }

  /**
   Updates one challenge after another.  As long as no undo call fails, every world a crash
   could leave behind is one in which each record that names a source digest speaks for all
   builds and instances of its challenge.
   */
  method UpdateChallenges(m: Manager, changes: seq<Change>, rebuild: bool, preflight: bool) returns (results: seq<UpdateResult>, ghost refused: bool)
    requires m.portLow == 0 || m.portLow <= m.portHigh
    requires Orderly(m.world)
    requires rebuild || KeepsDigests(m.world.db, changes)
    modifies m
    ensures |results| == |changes|
    ensures DistinctIds(changes) ==> RecordsAfter(old(m.world.db), m.world.db, changes, results)
    ensures forall r | r in results :: if rebuild then !r.Refreshed? else r.Refused? || r.Refreshed?
    ensures m.reliable && m.fortunate && !refused && (forall x | x in changes :: Acceptable(old(m.world.db), x)) ==> AllDone(results)
    ensures !rebuild ==> !refused
    ensures
      var able := (forall x | x in changes :: Acceptable(old(m.world.db), x)) && DistinctIds(changes) && CanMoveEach(old(m.world), AllOf(changes), m.portLow, m.portHigh);
      m.reliable && m.fortunate && able ==> !refused
    ensures !rebuild ==> m.world == old(m.world).(db := old(m.world.db).(challenges := m.world.db.challenges))
    ensures SameKeys(old(m.world.db), m.world.db)
    ensures Orderly(m.world) && (Consistent(old(m.world)) && UndoneCleanly(results) ==> Consistent(m.world))
    ensures old(m.crashPoints) <= m.crashPoints
    ensures forall d | d in m.crashPoints ::
      d in old(m.crashPoints) || (Orderly(d) && (Consistent(old(m.world)) && UndoneCleanly(results) ==> Consistent(d)))
  {
    hide *;
    ghost var s := m.world;
    results, refused := [], false;
    NoRecords(s.db, changes);
    NoneDone();
    KeysFirst(s.db);
    ghost var fine := m.reliable && m.fortunate && forall x | x in changes :: Acceptable(s.db, x);
    ghost var able := fine && rebuild && DistinctIds(changes) && CanMoveEach(s, AllOf(changes), m.portLow, m.portHigh);
    assert changes[0..] == changes;
    for k := 0 to |changes|
      invariant |results| == k
      invariant able ==> !refused && CanMoveEach(m.world, AllOf(changes[k..]), m.portLow, m.portHigh)
      invariant !rebuild ==> m.world == s.(db := s.db.(challenges := m.world.db.challenges))
      invariant DistinctIds(changes) ==> RecordsAfter(s.db, m.world.db, changes, results)
      invariant forall r | r in results :: if rebuild then !r.Refreshed? else r.Refused? || r.Refreshed?
      invariant Orderly(m.world) && (Consistent(s) && UndoneCleanly(results) ==> Consistent(m.world))
      invariant rebuild || KeepsDigests(m.world.db, changes)
      invariant m.world.db.challenges.Keys == s.db.challenges.Keys && (!rebuild ==> !refused)
      invariant fine && !refused ==> AllDone(results)
      invariant SameKeys(s.db, m.world.db)
      invariant old(m.crashPoints) <= m.crashPoints
      invariant forall d | d in m.crashPoints ::
        d in old(m.crashPoints) || (Orderly(d) && (Consistent(s) && UndoneCleanly(results) ==> Consistent(d)))
    {
      ghost var base := m.world;
      OrderlyIsSound(base);
      var x := changes[k];
      if able {
        RestDistinct(changes, k);
        EachMovesOne(base, AllOf(changes[k..]), x, m.portLow, m.portHigh);
      }
      AcceptableParts(s.db, base.db, x);
      var r;
      ghost var stuck;
      r, stuck := UpdateChallenge(m, x.id, x.record, rebuild, preflight);
      OutcomeOrderly(base, m.world, x.id, x.record, r);
      ReachedConsistently(base, x.id);
      LaterResult(results, r);
      OutcomeRecords(base, m.world, x, r);
      if DistinctIds(changes) { RecordsOn(s.db, base.db, m.world.db, changes, results, r); }
      if !rebuild {
        OutcomeKeepsDigests(base, m.world, changes, x, r);
      }
      if Consistent(s) && UndoneCleanly(results + [r]) { ChangeConsistent(base, m.world, changes, x, r, rebuild); }
      OneMoreDone(results, r);
      if able {
        CompletedWithin(base, m.world, x.id, x.record);
        RestMoves(base, m.world, AllOf(changes[k..]), x, m.portLow, m.portHigh);
      }
      if !rebuild { OnlyRecords(base, m.world, x.id, x.record, r); }
      OutcomeKeys(s.db, base, m.world, x.id, x.record, r);
      refused := refused || (rebuild && stuck);
      results := results + [r];
    }
  }

  /** Nothing about the change is unacceptable: it is of a record there is, the new one fits the
      tables, and it has an image to read the output of its builds from. */
  ghost predicate Acceptable(db: Db, x: Change) {
    x.id in db.challenges && Recordable(x.record) && Readable(x.record)
  }

  lemma AcceptableParts(s: Db, base: Db, x: Change)
    requires base.challenges.Keys == s.challenges.Keys
    ensures Acceptable(s, x) ==> x.id in base.challenges && Recordable(x.record) && Readable(x.record)
  {
    hide Recordable, Readable;
  }

  /** The names that instances of the challenge have no port for yet. */
  ghost function NewFor(db: Db, x: Change): set<(InstanceId, string)> {
    Newcomers(db, ImagesOf(x.record.hosts, x.record.portMap), Residents(db, x.id))
  }

  ghost function AllOf(changes: seq<Change>): set<Change> {
    set x | x in changes
  }

  ghost function NewForAny(db: Db, changes: set<Change>): set<(InstanceId, string)> {
    set x, p | x in changes && p in NewFor(db, x) :: p
  }

  /** The containers of its instances are there, and new names can be told apart. */
  ghost predicate Replaceable(w: World, x: Change, low: nat, high: nat) {
    && (forall i | i in Residents(w.db, x.id) :: i in w.db.instances && w.db.instances[i].runtime.containers <= w.containers.Keys)
    && (forall k: nat | Runnable(ImagesOf(x.record.hosts, x.record.portMap), k) :: ImagesOf(x.record.hosts, x.record.portMap)[k].ports <= x.record.portMap.Keys)
    && (forall i | i in Residents(w.db, x.id) && i in w.db.instances ::
          Distinguishable(low, high, PublishedNames(ImagesOf(x.record.hosts, x.record.portMap)), w.db.instances[i].runtime.ports))
  }

  /** All changes can be made one after the other: only owned containers run, and there are ports
      for all new names. */
  ghost predicate CanMoveEach(w: World, changes: set<Change>, low: nat, high: nat) {
    && Quiet(w) && |NewForAny(w.db, changes)| <= |SparePorts(w.db, low, high)|
    && forall x | x in changes :: Replaceable(w, x, low, high)
  }

  lemma EachMovesOne(w: World, changes: set<Change>, x: Change, low: nat, high: nat)
    requires CanMoveEach(w, changes, low, high) && x in changes
    ensures CanMoveAll(w, x.id, x.record, low, high)
  {
    hide Quiet, PublishedNames, Distinguishable, SparePorts, Residents, Newcomers;
    SubsetCounts(NewFor(w.db, x), NewForAny(w.db, changes));
    assert Replaceable(w, x, low, high);
  }

  /** One update leaves what the others need. */
  lemma RestMoves(w: World, d: World, changes: set<Change>, x: Change, low: nat, high: nat)
    requires x in changes && CanMoveEach(w, changes, low, high) && (forall y | y in changes && y != x :: y.id != x.id)
    requires Sound(w) && Within(w, d, x.id) && AllMoved(w, d, x.id, x.record, low, high)
    ensures CanMoveEach(d, changes - {x}, low, high)
  {
    hide Quiet, PublishedNames, Distinguishable, SparePorts, Within, Sound, Newcomers, Replaceable, Residents;
    var rest := changes - {x};
    forall y | y in rest
      ensures Replaceable(d, y, low, high) && NewFor(d.db, y) == NewFor(w.db, y) && NewFor(w.db, y) !! NewFor(w.db, x)
    {
      assert Replaceable(w, y, low, high);
      OtherStays(w, d, x.id, y, low, high);
      NewForApart(w.db, x, y);
    }
    assert NewForAny(d.db, rest) == NewForAny(w.db, rest);
    assert NewForAny(w.db, rest) !! NewFor(w.db, x);
    assert NewForAny(w.db, changes) == NewForAny(w.db, rest) + NewFor(w.db, x);
  }

  lemma OtherStays(w: World, d: World, ch: ChallengeId, y: Change, low: nat, high: nat)
    requires Sound(w) && Within(w, d, ch) && y.id != ch && Replaceable(w, y, low, high)
    ensures Replaceable(d, y, low, high) && NewFor(d.db, y) == NewFor(w.db, y)
  {
    hide Sound, Constraints, WithinDocker, OtherTags, OtherArtifacts, OldOrNew, PublishedNames, Distinguishable;
    assert Residents(d.db, y.id) == Residents(w.db, y.id);
    forall i | i in Residents(w.db, y.id)
      ensures i in d.db.instances && d.db.instances[i] == w.db.instances[i] && d.db.instances[i].runtime.containers <= d.containers.Keys
    {
      assert !Belongs(w.db, i, ch);
      forall c | c in w.db.instances[i].runtime.containers ensures c in d.containers { assert Others(w, ch, c); }
    }
  }

  lemma NewForApart(db: Db, x: Change, y: Change)
    requires x.id != y.id
    ensures NewFor(db, x) !! NewFor(db, y)
  {
    hide PublishedNames, HadPort;
  }

  lemma RestDistinct(changes: seq<Change>, k: nat)
    requires k < |changes| && DistinctIds(changes)
    ensures changes[k] in AllOf(changes[k..]) && AllOf(changes[k + 1..]) == AllOf(changes[k..]) - {changes[k]}
    ensures forall x | x in AllOf(changes[k..]) && x != changes[k] :: x.id != changes[k].id
  {
    assert changes[k..] == [changes[k]] + changes[k + 1..];
    forall x | x in changes[k + 1..]
      ensures x.id != changes[k].id
    {
      var j :| 0 <= j < |changes[k + 1..]| && changes[k + 1..][j] == x;
      assert changes[k + 1 + j] == x;
    }
  }

  lemma OnlyRecords(base: World, now: World, ch: ChallengeId, c: Challenge, r: UpdateResult)
    requires Outcome(base, now, ch, c, r) && (r.Refused? || r.Refreshed?)
    ensures now == base.(db := base.db.(challenges := now.db.challenges))
  {
  }

  /** Fewer changes are no harder, and records do not matter. */
  lemma FewerMoves(w: World, d: World, changes: set<Change>, some: set<Change>, low: nat, high: nat)
    requires CanMoveEach(w, changes, low, high) && some <= changes && d == w.(db := w.db.(challenges := d.db.challenges))
    ensures CanMoveEach(d, some, low, high)
  {
    hide Quiet, PublishedNames, Distinguishable;
    SameRowsQuiet(w, d);
    assert UsedPorts(d.db) == UsedPorts(w.db) && SparePorts(d.db, low, high) == SparePorts(w.db, low, high);
    forall x | x in some
      ensures NewFor(d.db, x) == NewFor(w.db, x) && Replaceable(d, x, low, high)
    {
      assert Replaceable(w, x, low, high) && Residents(d.db, x.id) == Residents(w.db, x.id);
    }
    SubsetCounts(NewForAny(d.db, some), NewForAny(w.db, changes));
  }

  lemma CompletedWithin(base: World, now: World, ch: ChallengeId, c: Challenge)
    requires Outcome(base, now, ch, c, Completed)
    ensures Within(base, now, ch)
  {
  }

  /** The same builds are there, of the same challenges. */
  ghost predicate SameKeys(s: Db, d: Db) {
    d.builds.Keys == s.builds.Keys && forall b | b in s.builds :: BuildKey(d.builds[b]) == BuildKey(s.builds[b])
  }

  lemma KeysFirst(s: Db)
    ensures SameKeys(s, s)
  {
  }

  lemma OutcomeKeys(s: Db, base: World, now: World, ch: ChallengeId, c: Challenge, r: UpdateResult)
    requires SameKeys(s, base.db) && Outcome(base, now, ch, c, r)
    ensures SameKeys(s, now.db)
  {
    hide Sound, WithinDocker, OthersRun, OtherTags, OtherArtifacts, OldOrNew, Belongs, Rebuilt, NoLeftovers, OldRemoved, Whole;
  }

  ghost predicate AllDone(results: seq<UpdateResult>) {
    forall r | r in results :: r.Refreshed? || r.Completed?
  }

  lemma NoneDone()
    ensures AllDone([])
  {
  }

  lemma OneMoreDone(results: seq<UpdateResult>, r: UpdateResult)
    ensures AllDone(results) && (r.Refreshed? || r.Completed?) ==> AllDone(results + [r])
  {
  }

  lemma NoRecords(s: Db, changes: seq<Change>)
    ensures RecordsAfter(s, s, changes, [])
  {
  }

  lemma OrderlyIsSound(s: World)
    requires Orderly(s)
    ensures Sound(s)
  {
  }

  lemma LaterResult(results: seq<UpdateResult>, r: UpdateResult)
    ensures UndoneCleanly(results + [r]) ==> UndoneCleanly(results) && r != RolledBack(false)
  {
    assert forall x | x in results :: x in results + [r];
    assert r in results + [r];
  }

  lemma ChangeConsistent(base: World, now: World, changes: seq<Change>, x: Change, r: UpdateResult, rebuild: bool)
    requires Sound(base) && Consistent(base) && Outcome(base, now, x.id, x.record, r) && r != RolledBack(false)
    requires x in changes && (rebuild || KeepsDigests(base.db, changes)) && (r.Refreshed? ==> !rebuild)
    ensures Consistent(now)
  {
    hide Sound, Consistent;
    OutcomeConsistent(base, now, x.id, x.record, r);
  }
}
