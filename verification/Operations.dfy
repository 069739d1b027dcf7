/**
 What a manager is asked to do, one operation after another (api.go, database_challenges.go):
 between any two, and wherever a process stops, the world is orderly and records speak for
 their builds.
 */
module Operations {
  import opened Store
  import opened Instances
  import opened Containers
  import opened Safety
  import opened Generations
  import opened Detection
  import opened Updates
  import opened Lifecycle
  import BuildUpdates
  import Migration
  import Recovery
  import Schemas

  // ------------------------------------------------------ coming and going

  function WithRecords(db: Db, records: map<ChallengeId, Challenge>, added: set<ChallengeId>): Db {
    db.(challenges := db.challenges + map k | k in added && k in records :: records[k])
  }

  lemma RecordAdded(s: World, k: ChallengeId, c: Challenge)
    requires Orderly(s) && k !in s.db.challenges
    ensures
      var d := s.(db := s.db.(challenges := s.db.challenges[k := c]));
      && (Constraints(d.db) <==> Recordable(c))
      && (Constraints(d.db) ==> Orderly(d) && (Consistent(s) ==> Consistent(d)))
  {
    hide Sound, Consistent, Recordable;
    OrderlyIsSound(s);
    var d := s.(db := s.db.(challenges := s.db.challenges[k := c]));
    HostsDecide(s, k, c);
    if Constraints(d.db) {
      SoundAdded(s, k, c);
      if Consistent(s) { ConsistentAdded(s, k, c); }
      forall name: string | !IsManual(name) ensures ActiveComplete(d.db, name) { SameActive(s.db, d.db, name); }
    }
  }

  lemma HostsDecide(s: World, k: ChallengeId, c: Challenge)
    requires Sound(s) && k !in s.db.challenges
    ensures Constraints(s.db.(challenges := s.db.challenges[k := c])) <==> Recordable(c)
  {
    hide UniquePorts, PortsInRange, UniqueContainers, UniqueBuilds, Recordable;
    var d := s.db.(challenges := s.db.challenges[k := c]);
    assert d.challenges[k] == c;
  }

  lemma SoundAdded(s: World, k: ChallengeId, c: Challenge)
    requires Sound(s) && Constraints(s.db.(challenges := s.db.challenges[k := c]))
    ensures Sound(s.(db := s.db.(challenges := s.db.challenges[k := c])))
  {
    SoundRecord(s, k, c);
    assert WithChallenge(s.db, k, c) == s.db.(challenges := s.db.challenges[k := c]);
  }

  /** A challenge without a record has no builds to speak for. */
  lemma ConsistentAdded(s: World, k: ChallengeId, c: Challenge)
    requires Sound(s) && Consistent(s) && k !in s.db.challenges
    ensures Consistent(s.(db := s.db.(challenges := s.db.challenges[k := c])))
  {
    hide UniquePorts, PortsInRange, UniqueContainers, UniqueBuilds, Recordable, BuildSpokenFor, OwnedOrRetired;
    var d := s.(db := s.db.(challenges := s.db.challenges[k := c]));
    forall ch: ChallengeId ensures Generation(d, ch) {
      assert Generation(s, ch);
      forall b, g: string | b in d.db.builds && BuildSpokenFor(s, b, g) ensures BuildSpokenFor(d, b, g) { SpokenForStill(s, d, b, g); }
    }
  }

  lemma SpokenForStill(s: World, d: World, b: BuildId, g: string)
    requires b in s.db.builds && BuildSpokenFor(s, b, g)
    requires d == s.(db := s.db.(challenges := d.db.challenges))
    ensures BuildSpokenFor(d, b, g)
  {
    hide RunsNew;
    KeptSpokenFor(s, d, b, g);
  }

  /** A world that an operation other than an update may stop in. */
  ghost predicate Fit(s: World, d: World) {
    Orderly(d) && (Consistent(s) ==> Consistent(d))
  }

  lemma FitSelf(s: World)
    requires Orderly(s)
    ensures Fit(s, s)
  {
    hide Orderly, Consistent;
  }

  /** Adds records one transaction each, going on past those that are refused. */
  method AddChallenges(m: Manager, records: map<ChallengeId, Challenge>, ids: set<ChallengeId>) returns (added: set<ChallengeId>)
    requires Orderly(m.world) && ids <= records.Keys
    modifies m
    ensures added <= ids && m.world == old(m.world).(db := WithRecords(old(m.world.db), records, added))
    ensures forall k | k in added :: k !in old(m.world.db.challenges)
    ensures m.reliable ==> forall k | k in ids :: k in added <==> k !in old(m.world.db.challenges) && Recordable(records[k])
    ensures Fit(old(m.world), m.world)
    ensures old(m.crashPoints) <= m.crashPoints
    ensures forall d | d in m.crashPoints :: d in old(m.crashPoints) || Fit(old(m.world), d)
  {
    hide *;
    ghost var s := m.world;
    added := {};
    NothingAdded(s, records);
    FitSelf(s);
    var todo := ids;
    while todo != {}
      invariant todo <= ids && added <= ids - todo
      invariant m.world == s.(db := WithRecords(s.db, records, added))
      invariant forall k | k in added :: k !in s.db.challenges
      invariant m.reliable ==> forall k | k in ids - todo :: k in added <==> k !in s.db.challenges && Recordable(records[k])
      invariant Fit(s, m.world) && old(m.crashPoints) <= m.crashPoints
      invariant forall d | d in m.crashPoints :: d in old(m.crashPoints) || Fit(s, d)
    {
      var k :| k in todo;
      ghost var mid := m.world;
      todo := todo - {k};
      OneMoreAdded(s, records, added, k);
      FitParts(s, mid);
      if k !in m.world.db.challenges {
        RecordAdded(mid, k, records[k]);
        FitAdded(s, mid, k, records[k]);
        var ok := m.Commit(m.world.db.(challenges := m.world.db.challenges[k := records[k]]));
        if ok {
          added := added + {k};
        }
      }
    }
  }

  lemma FitParts(s: World, d: World)
    requires Fit(s, d)
    ensures Orderly(d)
  {
  }

  lemma FitAdded(s: World, mid: World, k: ChallengeId, c: Challenge)
    requires Fit(s, mid) && k !in mid.db.challenges
    ensures
      var d := mid.(db := mid.db.(challenges := mid.db.challenges[k := c]));
      Constraints(d.db) ==> Fit(s, d)
  {
    hide Orderly, Consistent;
    RecordAdded(mid, k, c);
  }

  lemma NothingAdded(s: World, records: map<ChallengeId, Challenge>)
    ensures s == s.(db := WithRecords(s.db, records, {}))
  {
    assert WithRecords(s.db, records, {}).challenges == s.db.challenges;
  }

  lemma OneMoreAdded(s: World, records: map<ChallengeId, Challenge>, added: set<ChallengeId>, k: ChallengeId)
    requires k in records && k !in added
    ensures
      var d := s.(db := WithRecords(s.db, records, added));
      && (k in d.db.challenges <==> k in s.db.challenges)
      && d.(db := d.db.(challenges := d.db.challenges[k := records[k]])) == s.(db := WithRecords(s.db, records, added + {k}))
  {
    var d := WithRecords(s.db, records, added);
    assert d.challenges[k := records[k]] == WithRecords(s.db, records, added + {k}).challenges;
  }

  function WithoutRecords(db: Db, ids: set<ChallengeId>): Db {
    db.(challenges := db.challenges - ids)
  }

  ghost predicate HasBuilds(db: Db, ids: set<ChallengeId>) {
    exists b :: b in db.builds && db.builds[b].challenge in ids
  }

  /** The foreign key of builds refuses a removal exactly when one of the challenges has any. */
  lemma RecordsRemoved(s: World, ids: set<ChallengeId>)
    requires Orderly(s)
    ensures
      var d := s.(db := WithoutRecords(s.db, ids));
      && (Constraints(d.db) <==> !HasBuilds(s.db, ids))
      && (Constraints(d.db) ==> Fit(s, d))
  {
    hide Sound, Consistent;
    OrderlyIsSound(s);
    var d := s.(db := WithoutRecords(s.db, ids));
    ForeignKeysDecide(s, ids);
    if Constraints(d.db) {
      SoundRemoved(s, ids);
      if Consistent(s) { ConsistentRemoved(s, ids); }
      forall name: string | !IsManual(name) ensures ActiveComplete(d.db, name) { SameActive(s.db, d.db, name); }
    }
  }

  lemma ForeignKeysDecide(s: World, ids: set<ChallengeId>)
    requires Sound(s)
    ensures Constraints(WithoutRecords(s.db, ids)) <==> !HasBuilds(s.db, ids)
  {
    hide UniquePorts, PortsInRange, UniqueContainers, UniqueBuilds, Recordable;
    var d := WithoutRecords(s.db, ids);
    if Constraints(d) {
      forall b | b in s.db.builds ensures s.db.builds[b].challenge !in ids { assert d.builds[b].challenge in d.challenges; }
    }
  }

  lemma SoundRemoved(s: World, ids: set<ChallengeId>)
    requires Sound(s) && Constraints(WithoutRecords(s.db, ids))
    ensures Sound(s.(db := WithoutRecords(s.db, ids)))
  {
    hide Constraints, FitsRuntime, DistinctImages;
    var d := s.(db := WithoutRecords(s.db, ids));
    forall c | c in d.running
      ensures Tracked(d.db, c)
    {
      if Owned(s.db, c) { assert Owned(d.db, c); }
    }
  }

  lemma ConsistentRemoved(s: World, ids: set<ChallengeId>)
    requires Consistent(s)
    ensures Consistent(s.(db := WithoutRecords(s.db, ids)))
  {
    hide Consistent, RunsNew;
    var d := s.(db := WithoutRecords(s.db, ids));
    forall b | b in d.db.builds ensures KeepsBuild(s, d, b) { }
    KeptConsistent(s, d);
  }

  /** Removes records in one transaction; one that is missing or has builds undoes all of it. */
  method RemoveChallenges(m: Manager, ids: set<ChallengeId>) returns (ok: bool)
    requires Orderly(m.world)
    modifies m
    ensures ok ==> ids <= old(m.world.db.challenges.Keys) && !HasBuilds(old(m.world.db), ids)
    ensures ok ==> m.world == old(m.world).(db := WithoutRecords(old(m.world.db), ids))
    ensures !ok ==> m.world == old(m.world)
    ensures m.reliable ==> (ok <==> ids <= old(m.world.db.challenges.Keys) && !HasBuilds(old(m.world.db), ids))
    ensures Fit(old(m.world), m.world)
    ensures old(m.crashPoints) <= m.crashPoints
    ensures forall d | d in m.crashPoints :: d in old(m.crashPoints) || Fit(old(m.world), d)
  {
    hide Orderly, Consistent, Constraints, HasBuilds;
    FitSelf(m.world);
    RecordsRemoved(m.world, ids);
    var next := m.world.db;
    var todo := ids;
    while todo != {}
      invariant todo <= ids && ids - todo <= m.world.db.challenges.Keys
      invariant next == m.world.db.(challenges := m.world.db.challenges - (ids - todo))
    {
      var k :| k in todo;
      if k !in m.world.db.challenges {
        return false;
      }
      next := next.(challenges := next.challenges - {k});
      assert ids - (todo - {k}) == (ids - todo) + {k};
      todo := todo - {k};
    }
    assert ids - todo == ids;
    ok := m.Commit(next);
  }

  // ----------------------------------------------------------------- update

  /** The changes that bring the records of `ids` to what is on disk. */
  ghost predicate ListOf(changes: seq<Change>, ids: set<ChallengeId>, inventory: map<ChallengeId, Challenge>) {
    && DistinctIds(changes)
    && (forall j | 0 <= j < |changes| :: changes[j].id in ids && changes[j].id in inventory && changes[j].record == inventory[changes[j].id])
    && (forall k | k in ids :: Among(k, changes, |changes|))
  }

  method ListChanges(ids: set<ChallengeId>, inventory: map<ChallengeId, Challenge>) returns (changes: seq<Change>)
    requires ids <= inventory.Keys
    ensures ListOf(changes, ids, inventory)
  {
    changes := [];
    var todo := ids;
    while todo != {}
      invariant todo <= ids && ListOf(changes, ids - todo, inventory)
    {
      var k :| k in todo;
      ListedOneMore(changes, ids - todo, inventory, k);
      assert ids - (todo - {k}) == (ids - todo) + {k};
      changes, todo := changes + [Change(k, inventory[k])], todo - {k};
    }
    assert ids - todo == ids;
  }

  lemma ListedOneMore(changes: seq<Change>, ids: set<ChallengeId>, inventory: map<ChallengeId, Challenge>, k: ChallengeId)
    requires ListOf(changes, ids, inventory) && k in inventory && k !in ids
    ensures ListOf(changes + [Change(k, inventory[k])], ids + {k}, inventory)
  {
    var more := changes + [Change(k, inventory[k])];
    forall x | x in ids + {k}
      ensures Among(x, more, |more|)
    {
      if x == k {
        assert more[|changes|].id == x;
      } else {
        var j :| 0 <= j < |changes| && changes[j].id == x;
        assert more[j].id == x;
      }
    }
  }

  ghost predicate TookEffect(results: seq<UpdateResult>) {
    forall r | r in results :: r.Refreshed? || r.Completed?
  }

  lemma EffectOnRecords(s: Db, d: Db, changes: seq<Change>, results: seq<UpdateResult>, ids: set<ChallengeId>, inventory: map<ChallengeId, Challenge>)
    requires ListOf(changes, ids, inventory) && ids <= inventory.Keys && |results| == |changes|
    requires RecordsAfter(s, d, changes, results)
    ensures d.challenges.Keys == s.challenges.Keys && forall k | k !in ids :: SameRecord(s, d, k)
    ensures TookEffect(results) ==> forall k | k in ids :: k in d.challenges && d.challenges[k] == inventory[k]
  {
    forall k | k !in ids
      ensures SameRecord(s, d, k)
    {
      assert !Among(k, changes, |results|);
    }
    if TookEffect(results) {
      forall k | k in ids
        ensures k in d.challenges && d.challenges[k] == inventory[k]
      {
        assert Among(k, changes, |changes|);
        var j :| 0 <= j < |changes| && changes[j].id == k;
        assert results[j] in results;
        assert RecordAfter(s, d, changes[j], results[j]);
      }
    }
  }

  /** Every challenge on disk is on record as it is there, or as it was when nothing differed;
      no other is, except those whose directory was not searched. */
  ghost predicate UpToDate(s: Db, d: Db, inventory: map<ChallengeId, Challenge>, searched: set<ChallengeId>) {
    && (forall k | k in inventory :: k in d.challenges &&
          (d.challenges[k] == inventory[k] || (k in s.challenges && d.challenges[k] == s.challenges[k] && Current(s.challenges[k], inventory[k]))))
    && (forall k | k in d.challenges && k !in inventory :: k in s.challenges && k !in searched && d.challenges[k] == s.challenges[k])
  }

  lemma RecordedIsOnDisk(s: Db, d: Db, inventory: map<ChallengeId, Challenge>, searched: set<ChallengeId>)
    requires UpToDate(s, d, inventory, searched)
    ensures forall k | k in inventory :: k in d.challenges && Compared(d.challenges[k]) == Compared(inventory[k])
  {
  }

  /** So a second look finds nothing to do. */
  lemma NothingLeftToUpdate(s: Db, d: Db, inventory: map<ChallengeId, Challenge>, searched: set<ChallengeId>, cu: ChallengeUpdates)
    requires UpToDate(s, d, inventory, searched)
    requires forall k | k in inventory :: inventory[k].sourceDigest != "" && inventory[k].metadataDigest != ""
    requires Classified(d, inventory, searched, cu) && Justified(d, inventory, cu) && cu.failed == {} && RebuildsOnlyWhenNeeded(d, inventory, cu)
    ensures cu.added == {} && cu.refreshed == {} && cu.updated == {} && cu.removed == {} && cu.unmodified == inventory.Keys
  {
    forall k | k in inventory
      ensures k in d.challenges && Current(d.challenges[k], inventory[k])
    {
    }
    forall k | k in inventory ensures k in cu.unmodified {
      assert k in cu.unmodified + cu.refreshed + cu.updated + cu.failed;
    }
    forall k | k in cu.unmodified ensures k in inventory { }
    assert cu.added == {} && cu.refreshed == {} && cu.updated == {} && cu.removed == {};
  }

  /** What an update reports: the classes it found, and how each change ended. */
  datatype Report = Report(found: ChallengeUpdates, refreshed: seq<UpdateResult>, updated: seq<UpdateResult>, errors: bool)

  ghost predicate CleanReport(report: Report) {
    (forall r | r in report.refreshed :: r != RolledBack(false)) && (forall r | r in report.updated :: r != RolledBack(false))
  }

  lemma CleanIsUndone(report: Report)
    ensures CleanReport(report) <==> UndoneCleanly(report.refreshed) && UndoneCleanly(report.updated)
  {
  }

  /** A metadata-only change keeps its source digest, also when other records were added. */
  lemma RefreshKeepsDigests(s: Db, a: Db, inventory: map<ChallengeId, Challenge>, cu: ChallengeUpdates, added: set<ChallengeId>, changes: seq<Change>)
    requires Justified(s, inventory, cu) && ListOf(changes, cu.refreshed, inventory)
    requires a == WithRecords(s, inventory, added) && forall k | k in added :: k !in s.challenges
    ensures KeepsDigests(a, changes)
  {
    forall x | x in changes && x.id in a.challenges
      ensures x.record.sourceDigest == a.challenges[x.id].sourceDigest
    {
      var j :| 0 <= j < |changes| && changes[j] == x;
      assert x.id in cu.refreshed && x.id in s.challenges;
      assert Fits(s.challenges[x.id], inventory[x.id], Class.Refreshed);
    }
  }

  lemma RecordsUpToDate(s: Db, a: Db, b: Db, c: Db, d: Db, inventory: map<ChallengeId, Challenge>, searched: set<ChallengeId>, cu: ChallengeUpdates)
    requires Classified(s, inventory, searched, cu) && Justified(s, inventory, cu) && cu.failed == {}
    requires a == WithRecords(s, inventory, cu.added)
    requires b.challenges.Keys == a.challenges.Keys && (forall k | k !in cu.refreshed :: SameRecord(a, b, k))
    requires forall k | k in cu.refreshed :: k in b.challenges && k in inventory && b.challenges[k] == inventory[k]
    requires c.challenges.Keys == b.challenges.Keys && (forall k | k !in cu.updated :: SameRecord(b, c, k))
    requires forall k | k in cu.updated :: k in c.challenges && k in inventory && c.challenges[k] == inventory[k]
    requires d == WithoutRecords(c, cu.removed)
    ensures UpToDate(s, d, inventory, searched)
  {
    hide Current;
    forall k | k in inventory
      ensures k in d.challenges && (d.challenges[k] == inventory[k] || (k in s.challenges && d.challenges[k] == s.challenges[k] && Current(s.challenges[k], inventory[k])))
    {
      assert k !in cu.removed;
      if k in s.challenges {
        assert k in cu.unmodified + cu.refreshed + cu.updated + cu.failed;
        assert SameRecord(a, b, k) || k in cu.refreshed;
        assert SameRecord(b, c, k) || k in cu.updated;
      } else {
        assert k in cu.added;
        assert SameRecord(a, b, k) && SameRecord(b, c, k);
      }
    }
    forall k | k in d.challenges && k !in inventory
      ensures k in s.challenges && k !in searched && d.challenges[k] == s.challenges[k]
    {
      assert k !in cu.refreshed && k !in cu.updated;
      assert SameRecord(a, b, k) && SameRecord(b, c, k);
      assert k in s.challenges && k !in cu.removed;
    }
  }

  /**
   Brings records, builds and instances to what is on disk: new challenges are added, changed
   ones refreshed or rebuilt, and only when nothing went wrong are missing ones removed.
   */
  method Update(m: Manager, inventory: map<ChallengeId, Challenge>, inventoryErrors: bool, searched: set<ChallengeId>)
    returns (report: Report, ghost refused: bool)
    requires m.portLow == 0 || m.portLow <= m.portHigh
    requires Orderly(m.world)
    modifies m
    ensures !report.errors ==> UpToDate(old(m.world.db), m.world.db, inventory, searched)
    ensures !report.errors ==> forall k | k in inventory :: k in m.world.db.challenges && Compared(m.world.db.challenges[k]) == Compared(inventory[k])
    ensures report.errors ==> old(m.world.db.challenges.Keys) <= m.world.db.challenges.Keys
    ensures
      var acceptable := !inventoryErrors && AllAcceptable(inventory) && !HasBuilds(old(m.world.db), Vanished(old(m.world.db), inventory, searched));
      m.reliable && m.fortunate && acceptable && !refused ==> !report.errors
    ensures
      var able := AllAcceptable(inventory) && CanMoveEach(old(m.world), Outdated(old(m.world.db), inventory), m.portLow, m.portHigh);
      m.reliable && m.fortunate && able ==> !refused
    ensures Orderly(m.world) && (Consistent(old(m.world)) && CleanReport(report) ==> Consistent(m.world))
    ensures old(m.crashPoints) <= m.crashPoints
    ensures forall d | d in m.crashPoints ::
      d in old(m.crashPoints) || (Orderly(d) && (Consistent(old(m.world)) && CleanReport(report) ==> Consistent(d)))
  {
    hide *;
    ghost var s := m.world;
    var cu := DetectChanges(m, inventory, inventoryErrors, searched);
    JustifiedKeys(s.db, inventory, cu);
    var added := AddChallenges(m, inventory, cu.added);
    ghost var a := m.world;
    FitWhole(s);
    WithRecordsKeys(s.db, inventory, added);

    var refreshes := ListChanges(cu.refreshed, inventory);
    RefreshKeepsDigests(s.db, a.db, inventory, cu, added, refreshes);
    ListIsDistinct(refreshes, cu.refreshed, inventory);
    FitParts(s, a);
    var refreshed;
    refreshed, refused := UpdateChallenges(m, refreshes, false, true);
    ghost var b := m.world;
    EffectOnRecords(a.db, b.db, refreshes, refreshed, cu.refreshed, inventory);

    var rebuilds := ListChanges(cu.updated, inventory);
    ListIsDistinct(rebuilds, cu.updated, inventory);
    var updated;
    if m.reliable && AllAcceptable(inventory) {
      AllAdded(s.db, inventory, searched, cu, added);
      AllFine(s.db, a.db, a.db, inventory, cu, added, refreshes, cu.refreshed);
      AllFine(s.db, a.db, b.db, inventory, cu, added, rebuilds, cu.updated);
      if CanMoveEach(s, Outdated(s.db, inventory), m.portLow, m.portHigh) {
        AllOutdated(s.db, inventory, cu, rebuilds);
        OnlyAdded(s.db, inventory, added);
        FewerMoves(s, b, Outdated(s.db, inventory), AllOf(rebuilds), m.portLow, m.portHigh);
      }
    }
    updated, refused := UpdateChallenges(m, rebuilds, true, true);
    ghost var c := m.world;
    EffectOnRecords(b.db, c.db, rebuilds, updated, cu.updated, inventory);
    DoneMeans(refreshed, updated);
    VanishedRemovable(s.db, a.db, b.db, c.db, inventory, searched, cu);

    var failed := cu.errors || added != cu.added
      || (exists r :: r in refreshed && !r.Refreshed? && !r.Completed?)
      || (exists r :: r in updated && !r.Refreshed? && !r.Completed?);
    report := Report(cu, refreshed, updated, failed);
    CleanIsUndone(report);
    FitWhole(c);
    if failed {
      return;
    }
    SucceededTookEffect(refreshed);
    SucceededTookEffect(updated);
    var removed := RemoveChallenges(m, cu.removed);
    report := report.(errors := !removed);
    CleanIsUndone(report);
    if removed {
      RecordsUpToDate(s.db, a.db, b.db, c.db, m.world.db, inventory, searched, cu);
      RecordedIsOnDisk(s.db, m.world.db, inventory, searched);
    }
  }

  /** The records on disk fit the tables, and their builds have an image to read from. */
  ghost predicate AllAcceptable(inventory: map<ChallengeId, Challenge>) {
    forall k | k in inventory :: Recordable(inventory[k]) && BuildUpdates.Readable(inventory[k])
  }

  /** What is neither as on disk nor brought up to date by its metadata alone. */
  ghost function Outdated(db: Db, inventory: map<ChallengeId, Challenge>): set<Change> {
    set k | k in inventory && k in db.challenges && !Current(db.challenges[k], inventory[k]) && !Refreshable(db.challenges[k], inventory[k]) :: Change(k, inventory[k])
  }

  lemma AllOutdated(db: Db, inventory: map<ChallengeId, Challenge>, cu: ChallengeUpdates, rebuilds: seq<Change>)
    requires Justified(db, inventory, cu) && RebuildsOnlyWhenNeeded(db, inventory, cu) && ListOf(rebuilds, cu.updated, inventory)
    ensures AllOf(rebuilds) <= Outdated(db, inventory)
  {
    hide Current, Refreshable;
    forall x | x in rebuilds
      ensures x in Outdated(db, inventory)
    {
      var j :| 0 <= j < |rebuilds| && rebuilds[j] == x;
      assert x.id in cu.updated;
    }
  }

  lemma OnlyAdded(db: Db, inventory: map<ChallengeId, Challenge>, added: set<ChallengeId>)
    ensures WithRecords(db, inventory, added) == db.(challenges := WithRecords(db, inventory, added).challenges)
  {
  }

  /** What was looked for and is not on disk any more. */
  ghost function Vanished(db: Db, inventory: map<ChallengeId, Challenge>, searched: set<ChallengeId>): set<ChallengeId> {
    set k | k in db.challenges && k !in inventory && k in searched
  }

  lemma AllAdded(s: Db, inventory: map<ChallengeId, Challenge>, searched: set<ChallengeId>, cu: ChallengeUpdates, added: set<ChallengeId>)
    requires Justified(s, inventory, cu) && AllAcceptable(inventory)
    requires added <= cu.added && forall k | k in cu.added :: k in inventory && (k in added <==> k !in s.challenges && Recordable(inventory[k]))
    ensures added == cu.added
  {
    hide Recordable;
  }

  lemma AllFine(s: Db, a: Db, b: Db, inventory: map<ChallengeId, Challenge>, cu: ChallengeUpdates, added: set<ChallengeId>, changes: seq<Change>, ids: set<ChallengeId>)
    requires Justified(s, inventory, cu) && AllAcceptable(inventory) && ListOf(changes, ids, inventory) && ids <= cu.refreshed + cu.updated
    requires a == WithRecords(s, inventory, added) && b.challenges.Keys == a.challenges.Keys
    ensures forall x | x in changes :: Acceptable(b, x)
  {
    hide Recordable;
    forall x | x in changes
      ensures Acceptable(b, x)
    {
      var j :| 0 <= j < |changes| && changes[j] == x;
      assert x.id in ids && x.id in s.challenges;
    }
  }

  lemma DoneMeans(refreshed: seq<UpdateResult>, updated: seq<UpdateResult>)
    ensures AllDone(refreshed) ==> !exists r :: r in refreshed && !r.Refreshed? && !r.Completed?
    ensures AllDone(updated) ==> !exists r :: r in updated && !r.Refreshed? && !r.Completed?
  {
  }

  /** What had no builds at first has none when it is to go. */
  lemma VanishedRemovable(s: Db, a: Db, b: Db, c: Db, inventory: map<ChallengeId, Challenge>, searched: set<ChallengeId>, cu: ChallengeUpdates)
    requires a.builds == s.builds && SameKeys(a, b) && SameKeys(b, c)
    requires c.challenges.Keys == b.challenges.Keys == a.challenges.Keys && s.challenges.Keys <= a.challenges.Keys
    ensures !cu.errors && Classified(s, inventory, searched, cu) && !HasBuilds(s, Vanished(s, inventory, searched)) ==>
      cu.removed <= c.challenges.Keys && !HasBuilds(c, cu.removed)
  {
    if !cu.errors && Classified(s, inventory, searched, cu) && !HasBuilds(s, Vanished(s, inventory, searched)) {
      assert cu.removed == Vanished(s, inventory, searched);
      forall x | x in c.builds
        ensures c.builds[x].challenge !in cu.removed
      {
        assert BuildKey(c.builds[x]) == BuildKey(s.builds[x]);
      }
    }
  }

  lemma FitWhole(s: World)
    ensures forall d :: Fit(s, d) ==> Orderly(d) && (Consistent(s) ==> Consistent(d))
  {
    hide Orderly, Consistent;
  }

  lemma SucceededTookEffect(results: seq<UpdateResult>)
    requires !exists r :: r in results && !r.Refreshed? && !r.Completed?
    ensures TookEffect(results)
  {
  }

  lemma JustifiedKeys(db: Db, inventory: map<ChallengeId, Challenge>, cu: ChallengeUpdates)
    requires Justified(db, inventory, cu)
    ensures cu.added <= inventory.Keys && cu.refreshed <= inventory.Keys && cu.updated <= inventory.Keys
    ensures forall k | k in cu.refreshed + cu.updated :: k in db.challenges
  {
  }

  lemma WithRecordsKeys(db: Db, records: map<ChallengeId, Challenge>, added: set<ChallengeId>)
    ensures db.challenges.Keys <= WithRecords(db, records, added).challenges.Keys && WithRecords(db, records, added).builds == db.builds
  {
  }

  lemma ListIsDistinct(changes: seq<Change>, ids: set<ChallengeId>, inventory: map<ChallengeId, Challenge>)
    requires ListOf(changes, ids, inventory)
    ensures DistinctIds(changes)
  {
  }

  // ------------------------------------------------- single instances

  lemma SameTablesOrderly(s: World, d: World)
    requires Orderly(s) && Sound(d) && d.db.builds == s.db.builds && d.db.schemas == s.db.schemas
    ensures Orderly(d)
  {
    hide Sound;
    forall name: string | !IsManual(name) ensures ActiveComplete(d.db, name) { SameActive(s.db, d.db, name); }
  }

  lemma StartFits(s: World)
    requires Orderly(s)
    ensures forall d :: Sound(d) && Preserves(s, d) ==> Fit(s, d)
  {
    hide Sound, Orderly, Consistent, Preserves;
    OrderlyIsSound(s);
    SoundIdsOf(s);
    forall d | Sound(d) && Preserves(s, d)
      ensures Fit(s, d)
    {
      PreservesTables(s, d);
      SameTablesOrderly(s, d);
      if Consistent(s) { PreservesConsistent(s, d); }
    }
  }

  lemma PreservesTables(s: World, d: World)
    requires Preserves(s, d)
    ensures d.db.builds == s.db.builds && d.db.schemas == s.db.schemas
  {
  }

  /** Starts an instance of a build whose instances users create themselves. */
  method Start(m: Manager, b: BuildId) returns (r: Option<InstanceId>, ghost rt: Runtime)
    requires m.portLow == 0 || m.portLow <= m.portHigh
    requires Orderly(m.world)
    modifies m
    ensures !(b in old(m.world.db.builds) && old(m.world.db.builds[b].instanceCount) == DYNAMIC_INSTANCES) ==> r == None && m.world == old(m.world)
    ensures r.Some? ==> Spawned(old(m.world), m.world, r.value, b, rt)
    ensures r == None && m.reliable ==> m.world == old(m.world).(nextId := m.world.nextId)
    ensures
      var able := CanLaunch(old(m.world), m.portLow, m.portHigh, b) && old(m.world.db.builds[b].instanceCount) == DYNAMIC_INSTANCES;
      m.reliable && m.fortunate && able ==> r.Some?
    ensures Fit(old(m.world), m.world)
    ensures old(m.crashPoints) <= m.crashPoints
    ensures forall d | d in m.crashPoints :: d in old(m.crashPoints) || Fit(old(m.world), d)
  {
    hide *;
    ghost var s := m.world;
    rt := NOTHING;
    FitSelf(s);
    SameWorld(s);
    LaunchParts(s, m.portLow, m.portHigh, b);
    var read := m.Query();
    if !read || b !in m.world.db.builds || m.world.db.builds[b].instanceCount != DYNAMIC_INSTANCES {
      return None, rt;
    }
    OrderlyIsSound(s);
    StartFits(s);
    var clean;
    r, clean, rt := NewInstance(m, b, m.world.db.builds[b]);
  }

  lemma SameWorld(s: World)
    ensures s == s.(nextId := s.nextId)
  {
  }

  lemma StopFits(s: World, i: InstanceId)
    requires Orderly(s) && i in s.db.instances
    ensures forall d :: Unwound(s, d, i, s.db.instances[i].runtime.containers) || InstanceGone(s, d, i) ==> Fit(s, d)
  {
    hide Sound, Orderly, Consistent;
    OrderlyIsSound(s);
    var ids := s.db.instances[i].runtime.containers;
    forall d | Unwound(s, d, i, ids) || InstanceGone(s, d, i)
      ensures Fit(s, d)
    {
      if Unwound(s, d, i, ids) { SoundUnwound(s, d, i, ids); } else { SoundGone(s, d, i); }
      SameTablesOrderly(s, d);
      if Consistent(s) {
        if Unwound(s, d, i, ids) { UnwoundConsistent(s, d, i, ids); } else { GoneConsistent(s, d, i); }
      }
    }
  }

  /** Stops an instance of a build whose instances users create themselves. */
  method Stop(m: Manager, i: InstanceId) returns (ok: bool)
    requires Orderly(m.world)
    modifies m
    ensures ok ==> UserManaged(old(m.world.db), i) && InstanceGone(old(m.world), m.world, i)
    ensures !UserManaged(old(m.world.db), i) ==> m.world == old(m.world)
    ensures m.reliable ==> (ok <==> UserManaged(old(m.world.db), i))
    ensures Fit(old(m.world), m.world)
    ensures old(m.crashPoints) <= m.crashPoints
    ensures forall d | d in m.crashPoints :: d in old(m.crashPoints) || Fit(old(m.world), d)
  {
    hide Orderly, Consistent, Unwound, InstanceGone, Fit;
    ghost var s := m.world;
    FitSelf(s);
    var read := m.Query();
    if !read || i !in m.world.db.instances || m.world.db.instances[i].build !in m.world.db.builds {
      return false;
    }
    if m.world.db.builds[m.world.db.instances[i].build].instanceCount != DYNAMIC_INSTANCES {
      return false;
    }
    OrderlyIsSound(s);
    SoundConstraints(s);
    StopFits(s, i);
    ok := StopInstance(m, i);
  }

  ghost predicate UserManaged(db: Db, i: InstanceId) {
    && i in db.instances && db.instances[i].build in db.builds
    && db.builds[db.instances[i].build].instanceCount == DYNAMIC_INSTANCES
  }

  // --------------------------------------------------------------- startup

  /**
   Starting a manager on a database file and the world its tables describe.  Only one that
   got the operation lock for itself may migrate, or repair what earlier runs left; beside a
   running operation it changes nothing.
   */
  method NewManager(h: Migration.Host, m: Manager, exclusiveStartup: bool, now: nat) returns (ok: bool)
    requires m.portLow == 0 || m.portLow <= m.portHigh
    requires Orderly(m.world)
    modifies h, m
    ensures ok ==> Migration.Usable(h.disk.database) && h.disk.latch.None?
    ensures Migration.Attempt(old(h.disk), h.disk)
    ensures !exclusiveStartup ==> h.disk == old(h.disk)
    ensures
      var clear := old(h.disk).latch.None? && now !in old(h.disk).staged && now !in old(h.disk).backups;
      h.reliable && exclusiveStartup && clear ==> (ok <==> Migration.Openable(old(h.disk.database)))
    ensures !exclusiveStartup || !ok ==> m.world == old(m.world) && m.crashPoints == old(m.crashPoints)
    ensures exclusiveStartup && ok ==> Recovery.RecoveredOthers(old(m.world), m.world)
    ensures exclusiveStartup && ok && m.reliable && Recovery.AllPinned(old(m.world)) ==> Recovery.RecoveredExactly(old(m.world), m.world)
    ensures Fit(old(m.world), m.world)
    ensures old(m.crashPoints) <= m.crashPoints
    ensures forall d | d in m.crashPoints :: d in old(m.crashPoints) || Fit(old(m.world), d)
    ensures forall d | d in h.crashPoints :: d in old(h.crashPoints) || Migration.Attempt(old(h.disk), d)
  {
    hide *;
    FitSelf(m.world);
    ok := Migration.InitDatabase(h, exclusiveStartup, now);
    if ok && exclusiveStartup {
      OrderlyIsSound(m.world);
      RecoveringFits(m.world);
      var recovered;
      ghost var stuck;
      recovered, stuck := Recovery.RetryRetiredResources(m);
    }
  }

  // ----------------------------------------------------------- whole runs

  datatype Command =
    | UpdateFrom(inventory: map<ChallengeId, Challenge>, inventoryErrors: bool, searched: set<ChallengeId>)
    | Create(def: Schemas.Schema, inventory: map<ChallengeId, Challenge>, inventoryErrors: bool)
    | Redefine(def: Schemas.Schema, inventory: map<ChallengeId, Challenge>, inventoryErrors: bool)
    | Launch(build: BuildId)
    | Halt(instance: InstanceId)
    | Recover

  lemma ChangingFits(s: World, name: string)
    requires Orderly(s)
    ensures forall d :: Schemas.Changing(s, d, name) ==> Fit(s, d)
  {
    hide Sound, Orderly, Consistent, Schemas.Changing;
    forall d | Schemas.Changing(s, d, name) ensures Fit(s, d) {
      Schemas.ChangingOrderly(s, d, name);
      ChangingIsFine(s, d, name);
    }
  }

  lemma ChangingIsFine(s: World, d: World, name: string)
    requires Schemas.Changing(s, d, name)
    ensures Consistent(s) ==> Consistent(d)
  {
    hide Consistent;
  }

  lemma RecoveringFits(s: World)
    requires Orderly(s)
    ensures forall d :: Recovery.Recovering(s, d) ==> Fit(s, d)
  {
    hide Sound, Orderly, Consistent;
    forall d | Recovery.Recovering(s, d) ensures Fit(s, d) { SameTablesOrderly(s, d); }
  }

  datatype Answer =
    | OfUpdate(report: Report)
    | OfCreate(created: Schemas.CreateResult)
    | OfRedefine(converged: Schemas.ConvergeResult)
    | OfLaunch(instance: Option<InstanceId>)
    | OfHalt(ok: bool)
    | OfRecover(ok: bool)

  /** No undo call of an update failed. */
  ghost predicate CleanAnswer(a: Answer) {
    a.OfUpdate? ==> CleanReport(a.report)
  }

  /** What an answer says about the world before and after. */
  ghost predicate Answered(s: World, d: World, command: Command, a: Answer) {
    match command
    case UpdateFrom(inventory, _, searched) =>
      && a.OfUpdate?
      && (!a.report.errors ==> UpToDate(s.db, d.db, inventory, searched))
    case Create(def, _, _) =>
      && a.OfCreate?
      && (a.created.Refused? ==> d == s)
      && (a.created.Established? ==> Schemas.Converged(d.db, def) && def.name in d.db.schemas)
      && (a.created.Withdrawn? ==> d.db.schemas == s.db.schemas && forall b | b in d.db.builds :: d.db.builds[b].schema != def.name)
    case Redefine(def, _, _) =>
      && a.OfRedefine?
      && (a.converged.UnknownSchema? ==> d == s)
      && (a.converged.NotActivated? ==> Schemas.Early(s, d, def.name))
      && (a.converged == Schemas.NotActivated(true) ==> d.db.instances == s.db.instances)
      && (a.converged.ActivatedAs? ==> Schemas.Late(s, d, def))
      && (a.converged == Schemas.ActivatedAs(true) ==> Schemas.Converged(d.db, def))
    case Launch(b) =>
      a.OfLaunch? && (a.instance.Some? ==> exists rt :: Spawned(s, d, a.instance.value, b, rt))
    case Halt(i) =>
      && a.OfHalt?
      && (a.ok ==> UserManaged(s.db, i) && InstanceGone(s, d, i))
      && (!UserManaged(s.db, i) ==> d == s)
    case Recover =>
      a.OfRecover? && (a.ok ==> Recovery.Recovered(s, d))
  }

  ghost predicate Succeeded(a: Answer) {
    match a
    case OfUpdate(report) => !report.errors
    case OfCreate(created) => created.Established?
    case OfRedefine(converged) => converged == Schemas.ActivatedAs(true)
    case OfLaunch(instance) => instance.Some?
    case OfHalt(ok) => ok
    case OfRecover(ok) => ok
  }

  /** What a command can be refused for, besides faults, is not the case. */
  ghost predicate Feasible(s: World, low: nat, high: nat, command: Command) {
    match command
    case UpdateFrom(inventory, inventoryErrors, searched) =>
      && !inventoryErrors && AllAcceptable(inventory) && !HasBuilds(s.db, Vanished(s.db, inventory, searched))
      && CanMoveEach(s, Outdated(s.db, inventory), low, high)
    case Create(def, inventory, inventoryErrors) =>
      && Schemas.ValidDefinition(def) && def.name !in s.db.schemas && def.challenges.Keys <= s.db.challenges.Keys
      && !inventoryErrors && Schemas.AllBuildable(s.db, def, inventory) && Schemas.CanStaffAll(s, def, low, high)
    case Redefine(def, inventory, inventoryErrors) =>
      && Schemas.ValidDefinition(def) && def.name in s.db.schemas && def.challenges.Keys <= s.db.challenges.Keys
      && (Schemas.AllBuilt(s.db, def) || (!inventoryErrors && Schemas.AllBuildable(s.db, def, inventory)))
      && (Schemas.AllStaffed(s.db, def) || Schemas.CanStaffAll(s, def, low, high))
    case Launch(b) =>
      CanLaunch(s, low, high, b) && s.db.builds[b].instanceCount == DYNAMIC_INSTANCES
    case Halt(i) =>
      UserManaged(s.db, i)
    case Recover =>
      Recovery.AllPinned(s) && Recovery.NoInvalidTarget(s.db, Recovery.AllBroken(s)) && Recovery.CanRestore(s, low, high, Recovery.AllBroken(s))
  }

  /** Carries out one command, which succeeds where it can when nothing goes wrong. */
  method Execute(m: Manager, command: Command) returns (a: Answer)
    requires m.portLow == 0 || m.portLow <= m.portHigh
    requires Orderly(m.world)
    modifies m
    ensures Answered(old(m.world), m.world, command, a)
    ensures m.reliable && m.fortunate && Feasible(old(m.world), m.portLow, m.portHigh, command) ==> Succeeded(a)
    ensures Orderly(m.world) && (Consistent(old(m.world)) && CleanAnswer(a) ==> Consistent(m.world))
    ensures old(m.crashPoints) <= m.crashPoints
    ensures forall d | d in m.crashPoints ::
      d in old(m.crashPoints) || (Orderly(d) && (Consistent(old(m.world)) && CleanAnswer(a) ==> Consistent(d)))
  {
    hide Answered, Orderly, Consistent, CleanAnswer, Succeeded, Fit, CanMoveEach, Outdated, AllAcceptable, HasBuilds, Vanished, CanLaunch, UserManaged, UpToDate,
      Spawned, InstanceGone, CleanReport, Schemas.ValidDefinition, Schemas.AllBuildable, Schemas.CanStaffAll, Schemas.AllBuilt, Schemas.AllStaffed,
      Schemas.Converged, Schemas.Changing, Schemas.Early, Schemas.Late, Recovery.AllPinned, Recovery.NoInvalidTarget, Recovery.CanRestore, Recovery.AllBroken,
      Recovery.Recovered, Recovery.RecoveredOthers, Recovery.RecoveredExactly, Recovery.Recovering;
    ghost var s := m.world;
    FitWhole(s);
    FitSelf(s);
    match command {
      case UpdateFrom(inventory, inventoryErrors, searched) =>
        var report;
        ghost var stuck;
        report, stuck := Update(m, inventory, inventoryErrors, searched);
        a := OfUpdate(report);
        UpdateAnswered(s, m.world, inventory, inventoryErrors, searched, report);
      case Create(def, inventory, inventoryErrors) =>
        ChangingFits(s, def.name);
        var r;
        ghost var stuck;
        r, stuck := Schemas.CreateSchema(m, def, inventory, inventoryErrors);
        a := OfCreate(r);
        CreateAnswered(s, m.world, def, inventory, inventoryErrors, r);
      case Redefine(def, inventory, inventoryErrors) =>
        ChangingFits(s, def.name);
        var r;
        ghost var stuck;
        r, stuck := Schemas.UpdateSchema(m, def, inventory, inventoryErrors);
        a := OfRedefine(r);
        RedefineAnswered(s, m.world, def, inventory, inventoryErrors, r);
      case Launch(b) =>
        ghost var rt;
        var r;
        r, rt := Start(m, b);
        a := OfLaunch(r);
        LaunchAnswered(s, m.world, b, r, rt);
      case Halt(i) =>
        var ok := Stop(m, i);
        a := OfHalt(ok);
        HaltAnswered(s, m.world, i, ok);
      case Recover =>
        OrderlyIsSound(s);
        RecoveringFits(s);
        var ok;
        ghost var stuck;
        ok, stuck := Recovery.RetryRetiredResources(m);
        a := OfRecover(ok);
        RecoverAnswered(s, m.world, ok);
    }
  }

  lemma UpdateAnswered(s: World, d: World, inventory: map<ChallengeId, Challenge>, inventoryErrors: bool, searched: set<ChallengeId>, report: Report)
    requires !report.errors ==> UpToDate(s.db, d.db, inventory, searched)
    ensures Answered(s, d, UpdateFrom(inventory, inventoryErrors, searched), OfUpdate(report))
    ensures Succeeded(OfUpdate(report)) <==> !report.errors
    ensures CleanAnswer(OfUpdate(report)) <==> CleanReport(report)
  {
    hide UpToDate, CleanReport;
  }

  lemma CreateAnswered(s: World, d: World, def: Schemas.Schema, inventory: map<ChallengeId, Challenge>, inventoryErrors: bool, r: Schemas.CreateResult)
    requires r.Refused? ==> d == s
    requires r.Established? ==> Schemas.Converged(d.db, def) && def.name in d.db.schemas
    requires r.Withdrawn? ==> d.db.schemas == s.db.schemas && forall b | b in d.db.builds :: d.db.builds[b].schema != def.name
    ensures Answered(s, d, Create(def, inventory, inventoryErrors), OfCreate(r))
    ensures (Succeeded(OfCreate(r)) <==> r.Established?) && CleanAnswer(OfCreate(r))
  {
    hide Schemas.Converged;
  }

  lemma RedefineAnswered(s: World, d: World, def: Schemas.Schema, inventory: map<ChallengeId, Challenge>, inventoryErrors: bool, r: Schemas.ConvergeResult)
    requires (r.UnknownSchema? ==> d == s) && (r.NotActivated? ==> Schemas.Early(s, d, def.name))
    requires (r == Schemas.NotActivated(true) ==> d.db.instances == s.db.instances) && (r.ActivatedAs? ==> Schemas.Late(s, d, def))
    requires r == Schemas.ActivatedAs(true) ==> Schemas.Converged(d.db, def)
    ensures Answered(s, d, Redefine(def, inventory, inventoryErrors), OfRedefine(r))
    ensures (Succeeded(OfRedefine(r)) <==> r == Schemas.ActivatedAs(true)) && CleanAnswer(OfRedefine(r))
  {
    hide Schemas.Converged, Schemas.Early, Schemas.Late;
  }

  lemma LaunchAnswered(s: World, d: World, b: BuildId, r: Option<InstanceId>, rt: Runtime)
    requires r.Some? ==> Spawned(s, d, r.value, b, rt)
    ensures Answered(s, d, Launch(b), OfLaunch(r)) && (Succeeded(OfLaunch(r)) <==> r.Some?) && CleanAnswer(OfLaunch(r))
  {
    hide Spawned;
  }

  lemma HaltAnswered(s: World, d: World, i: InstanceId, ok: bool)
    requires (ok ==> UserManaged(s.db, i) && InstanceGone(s, d, i)) && (!UserManaged(s.db, i) ==> d == s)
    ensures Answered(s, d, Halt(i), OfHalt(ok)) && (Succeeded(OfHalt(ok)) <==> ok) && CleanAnswer(OfHalt(ok))
  {
    hide InstanceGone, UserManaged;
  }

  lemma RecoverAnswered(s: World, d: World, ok: bool)
    requires ok ==> Recovery.Recovered(s, d)
    ensures Answered(s, d, Recover, OfRecover(ok)) && (Succeeded(OfRecover(ok)) <==> ok) && CleanAnswer(OfRecover(ok))
  {
    hide Recovery.Recovered;
  }

  ghost predicate AllClean(answers: seq<Answer>, k: nat)
    requires k <= |answers|
  {
    forall j | 0 <= j < k :: CleanAnswer(answers[j])
  }

  /** Every command led from one world to the next, and its answer is true of the two. */
  ghost predicate AllAnswered(commands: seq<Command>, worlds: seq<World>, answers: seq<Answer>)
    requires |answers| <= |commands|
  {
    |worlds| == |answers| + 1 && forall k | 0 <= k < |answers| :: Answered(worlds[k], worlds[k + 1], commands[k], answers[k])
  }

  /** What was feasible when its turn came has succeeded. */
  ghost predicate AllSucceed(commands: seq<Command>, worlds: seq<World>, answers: seq<Answer>, low: nat, high: nat)
    requires |answers| <= |commands| && |worlds| == |answers| + 1
  {
    forall k | 0 <= k < |answers| :: Feasible(worlds[k], low, high, commands[k]) ==> Succeeded(answers[k])
  }

  lemma OneMoreSuccess(commands: seq<Command>, worlds: seq<World>, answers: seq<Answer>, d: World, a: Answer, low: nat, high: nat)
    requires |answers| < |commands| && |worlds| == |answers| + 1 && AllSucceed(commands, worlds, answers, low, high)
    requires Feasible(worlds[|answers|], low, high, commands[|answers|]) ==> Succeeded(a)
    ensures AllSucceed(commands, worlds + [d], answers + [a], low, high)
  {
    hide Feasible, Succeeded;
  }

  lemma NoAnswers(commands: seq<Command>, s: World)
    ensures forall low, high :: AllSucceed(commands, [s], [], low, high)
    ensures AllAnswered(commands, [s], [])
  {
  }

  lemma OneMoreAnswer(commands: seq<Command>, worlds: seq<World>, answers: seq<Answer>, d: World, a: Answer)
    requires |answers| < |commands| && AllAnswered(commands, worlds, answers) && Answered(worlds[|answers|], d, commands[|answers|], a)
    ensures AllAnswered(commands, worlds + [d], answers + [a])
    ensures (worlds + [d])[|answers| + 1] == d
  {
    hide Answered;
  }

  /**
   A whole run.  `visible[k]` are the worlds a crash could leave up to the end of command `k`.
   Every one of them is orderly; and as long as no undo call has failed, every one of them is
   one whose records speak for their builds.  So a process that starts in any of them can rely
   on both again.
   */
  method Serve(m: Manager, commands: seq<Command>) returns (answers: seq<Answer>, ghost worlds: seq<World>, ghost visible: seq<set<World>>)
    requires m.portLow == 0 || m.portLow <= m.portHigh
    requires Orderly(m.world)
    modifies m
    ensures |answers| == |visible| == |commands|
    ensures AllAnswered(commands, worlds, answers) && worlds[0] == old(m.world) && worlds[|commands|] == m.world
    ensures m.reliable && m.fortunate ==> AllSucceed(commands, worlds, answers, m.portLow, m.portHigh)
    ensures forall k | 0 <= k < |visible| :: visible[k] <= m.crashPoints && (k == |visible| - 1 ==> visible[k] == m.crashPoints)
    ensures forall k, d | 0 <= k < |visible| && d in visible[k] && d !in old(m.crashPoints) :: Orderly(d)
    ensures forall k, d | 0 <= k < |visible| && d in visible[k] && d !in old(m.crashPoints) ::
      Consistent(old(m.world)) && AllClean(answers, k + 1) ==> Consistent(d)
    ensures Orderly(m.world) && (Consistent(old(m.world)) && AllClean(answers, |answers|) ==> Consistent(m.world))
  {
    hide *;
    ghost var s := m.world;
    answers, worlds, visible := [], [s], [];
    NoneUnclean(answers);
    NoAnswers(commands, s);
    for k := 0 to |commands|
      invariant |answers| == |visible| == k && |worlds| == k + 1 && old(m.crashPoints) <= m.crashPoints
      invariant AllAnswered(commands, worlds, answers) && worlds[0] == s && worlds[k] == m.world
      invariant m.reliable && m.fortunate ==> AllSucceed(commands, worlds, answers, m.portLow, m.portHigh)
      invariant forall j | 0 <= j < k :: visible[j] <= m.crashPoints && (j == k - 1 ==> visible[j] == m.crashPoints)
      invariant k == 0 ==> m.crashPoints == old(m.crashPoints)
      invariant forall d | d in m.crashPoints && d !in old(m.crashPoints) :: Orderly(d) && (Consistent(s) && AllClean(answers, k) ==> Consistent(d))
      invariant forall j, d | 0 <= j < k && d in visible[j] && d !in old(m.crashPoints) :: Orderly(d) && (Consistent(s) && AllClean(answers, j + 1) ==> Consistent(d))
      invariant Orderly(m.world) && (Consistent(s) && AllClean(answers, k) ==> Consistent(m.world))
    {
      var a := Execute(m, commands[k]);
      OneMoreClean(answers, a);
      OneMoreAnswer(commands, worlds, answers, m.world, a);
      if m.reliable && m.fortunate { OneMoreSuccess(commands, worlds, answers, m.world, a, m.portLow, m.portHigh); }
      answers, worlds, visible := answers + [a], worlds + [m.world], visible + [m.crashPoints];
    }
  }

  lemma NoneUnclean(answers: seq<Answer>)
    requires answers == []
    ensures AllClean(answers, 0)
  {
  }

  lemma OneMoreClean(answers: seq<Answer>, a: Answer)
    ensures AllClean(answers + [a], |answers| + 1) <==> AllClean(answers, |answers|) && CleanAnswer(a)
    ensures forall k: nat | k <= |answers| :: AllClean(answers + [a], k) <==> AllClean(answers, k)
  {
    hide CleanAnswer;
    var more := answers + [a];
    assert more[|answers|] == a && forall j | 0 <= j < |answers| :: more[j] == answers[j];
    forall k: nat | k <= |answers| ensures AllClean(more, k) <==> AllClean(answers, k) {
      assert forall j | 0 <= j < k :: more[j] == answers[j];
    }
  }
}
