/**
 Opening a database at startup: the migration latch, the backup and the versioned
 transactions (database.go).
 */
module Migration {
  import opened MigrationData

  const CURRENT_VERSION := 2

  /** A database without tables has not been created yet. */
  datatype Database = Database(version: int, tables: Option<Tables>)

  datatype LatchState = Attempting | Failed

  /** What lies beside the database file.  Backups are named after the time of the attempt. */
  datatype Disk = Disk(
    database: Database,
    latch: Option<LatchState>,
    staged: map<nat, Option<Database>>,
    backups: map<nat, Database>)

  const NEW_TABLES := Tables(
    {}, map[], map[], map[], map[], map[], map[], map[], map[], map[], map[], map[],
    Some(map[]), Some(map[]), Some({}), Some({}),
    {Seccomp, SeccompTweaks, SourceDigest, MetadataDigest}, UNIQUE_INDEXES + PLAIN_INDEXES)

  /** The disk, one call at a time: `crashPoints` collects what a crash could leave.  On a
      `reliable` host each call does what it is asked whenever the disk allows it. */
  class Host {
    var disk: Disk
    ghost var crashPoints: set<Disk>
    const reliable: bool

    constructor (disk: Disk, reliable: bool)
      ensures this.disk == disk && crashPoints == {disk} && this.reliable == reliable
    {
      this.disk := disk;
      this.reliable := reliable;
      crashPoints := {disk};
    }

    /** Creating the latch refuses to overwrite one; a failed write may leave the file. */
    method CreateLatch() returns (ok: bool)
      modifies this
      ensures ok ==> old(disk).latch == None && disk == old(disk).(latch := Some(Attempting))
      ensures !ok ==> disk == old(disk) || disk == old(disk).(latch := Some(Attempting))
      ensures reliable && old(disk).latch == None ==> ok
      ensures crashPoints == old(crashPoints) + {disk}
    {
      var fault: bool, created: bool := *, *;
      ok := disk.latch == None && (reliable || !fault);
      if ok || (disk.latch == None && created) {
        disk := disk.(latch := Some(Attempting));
      }
      crashPoints := crashPoints + {disk};
    }

    /** Rewrites an existing latch in place. */
    method MarkLatchFailed() returns (ok: bool)
      requires disk.latch.Some?
      modifies this
      ensures disk == old(disk).(latch := disk.latch) && disk.latch.Some?
      ensures ok ==> disk.latch == Some(Failed)
      ensures reliable ==> ok
      ensures crashPoints == old(crashPoints) + {disk}
    {
      var fault: bool := *;
      ok := reliable || !fault;
      if ok {
        disk := disk.(latch := Some(Failed));
      }
      crashPoints := crashPoints + {disk};
    }

    /** Removing the latch; one that reports an error may still have removed it. */
    method RemoveLatch() returns (ok: bool)
      modifies this
      ensures ok ==> disk == old(disk).(latch := None)
      ensures !ok ==> disk == old(disk) || disk == old(disk).(latch := None)
      ensures reliable ==> ok
      ensures crashPoints == old(crashPoints) + {disk}
    {
      var fault: bool, gone: bool := *, *;
      ok := reliable || !fault;
      if ok || gone {
        disk := disk.(latch := None);
      }
      crashPoints := crashPoints + {disk};
    }

    /** Reserves the staging file of a backup. */
    method Reserve(now: nat) returns (ok: bool)
      modifies this
      ensures ok ==> now !in old(disk).staged && disk == old(disk).(staged := old(disk).staged[now := None])
      ensures !ok ==> disk == old(disk)
      ensures reliable && now !in old(disk).staged ==> ok
      ensures crashPoints == old(crashPoints) + {disk}
    {
      var fault: bool := *;
      ok := now !in disk.staged && (reliable || !fault);
      if ok {
        disk := disk.(staged := disk.staged[now := None]);
      }
      crashPoints := crashPoints + {disk};
    }

    /** Fills the staging file with a consistent snapshot. */
    method Snapshot(now: nat) returns (ok: bool)
      requires now in disk.staged
      modifies this
      ensures ok ==> disk == old(disk).(staged := old(disk).staged[now := Some(old(disk).database)])
      ensures !ok ==> disk == old(disk).(staged := disk.staged)
      ensures reliable ==> ok
      ensures crashPoints == old(crashPoints) + {disk}
    {
      var fault: bool, partial: Option<Database> := *, *;
      ok := reliable || !fault;
      disk := disk.(staged := disk.staged[now := if ok then Some(disk.database) else partial]);
      crashPoints := crashPoints + {disk};
    }

    /** A hard link publishes the snapshot at once and never replaces an earlier backup. */
    method Publish(now: nat) returns (ok: bool)
      requires now in disk.staged && disk.staged[now].Some?
      modifies this
      ensures ok ==> now !in old(disk).backups && disk == old(disk).(backups := old(disk).backups[now := old(disk).staged[now].value])
      ensures !ok ==> disk == old(disk)
      ensures reliable && now !in old(disk).backups ==> ok
      ensures crashPoints == old(crashPoints) + {disk}
    {
      var fault: bool := *;
      ok := now !in disk.backups && (reliable || !fault);
      if ok {
        disk := disk.(backups := disk.backups[now := disk.staged[now].value]);
      }
      crashPoints := crashPoints + {disk};
    }

    method RemoveStaged(now: nat) returns (ok: bool)
      modifies this
      ensures ok ==> disk == old(disk).(staged := old(disk).staged - {now})
      ensures !ok ==> disk == old(disk)
      ensures reliable ==> ok
      ensures crashPoints == old(crashPoints) + {disk}
    {
      var fault: bool := *;
      ok := reliable || !fault;
      if ok {
        disk := disk.(staged := disk.staged - {now});
      }
      crashPoints := crashPoints + {disk};
    }

    /** One transaction that also sets the version. */
    method Commit(next: Database) returns (ok: bool)
      modifies this
      ensures ok ==> disk == old(disk).(database := next)
      ensures !ok ==> disk == old(disk)
      ensures reliable ==> ok
      ensures crashPoints == old(crashPoints) + {disk}
    {
      var fault: bool := *;
      ok := reliable || !fault;
      if ok {
        disk := disk.(database := next);
      }
      crashPoints := crashPoints + {disk};
    }
  }

  // --------------------------------------------------------- specification

  /** The database after the migration from its version, if there is one and it applies. */
  function Migrated(d: Database): Option<Database> {
    if d.tables.None? then None
    else if d.version == 0 then
      (match MigrateV0ToV1(d.tables.value) case None => None case Some(t) => Some(Database(1, Some(t))))
    else if d.version == 1 then Some(Database(2, Some(MigrateV1ToV2(d.tables.value))))
    else None
  }

  /** Where the migrations lead from here, if they all apply. */
  function Upgraded(d: Database): Option<Database>
    decreases CURRENT_VERSION - d.version
  {
    if d.version >= CURRENT_VERSION then Some(d)
    else
      var next := Migrated(d);
      if next.None? || next.value.version <= d.version then None else Upgraded(next.value)
  }

  lemma UpgradedStep(d: Database)
    ensures d.version >= CURRENT_VERSION ==> Upgraded(d) == Some(d)
    ensures d.version < CURRENT_VERSION && Migrated(d).None? ==> Upgraded(d).None?
    ensures d.version < CURRENT_VERSION && Migrated(d).Some? ==> Upgraded(d) == Upgraded(Migrated(d).value)
  {
    MigratedNext(d);
  }

  /** A database that can be opened with the right to change it. */
  ghost predicate Openable(d: Database) {
    if d.tables.None? then d.version == 0
    else d.version <= CURRENT_VERSION && Upgraded(d).Some? && Upgraded(d).value.tables.Some? && CurrentInvariants(Upgraded(d).value.tables.value)
  }

  function Opened(d: Database): Database {
    if d.tables.None? then Database(CURRENT_VERSION, Some(NEW_TABLES)) else if Upgraded(d).Some? then Upgraded(d).value else d
  }

  /** Of the oldest databases exactly those open whose distinct rows fit the indexes, name
      nothing that is not there, and have the indexes that no migration makes. */
  lemma OldestOpenIff(t: Tables)
    ensures Openable(Database(0, Some(t))) <==> Migratable(t) && Intact(t)
    ensures Migratable(t) ==> Opened(Database(0, Some(t))).tables.Some? && SameRows(t, Opened(Database(0, Some(t))).tables.value) && Indexable(Opened(Database(0, Some(t))).tables.value)
  {
    hide *;
    MigratesIff(t);
    BothSteps(t);
    OldestUpgrades(t);
  }

  /** One step later nothing is merged any more: what opens is what the second step completes. */
  lemma SecondOpenIff(t: Tables)
    ensures Opened(Database(1, Some(t))) == Database(2, Some(MigrateV1ToV2(t)))
    ensures Openable(Database(1, Some(t))) <==>
      References(t) && OwnedApart(t) && {Seccomp, SeccompTweaks} <= t.columns && UNIQUE_INDEXES + PLAIN_INDEXES <= t.indexes
  {
    hide MigrateV1ToV2, CurrentInvariants, References, UNIQUE_INDEXES, PLAIN_INDEXES;
    V2Completes(t);
    UpgradedStep(Database(1, Some(t)));
    UpgradedStep(Database(2, Some(MigrateV1ToV2(t))));
  }

  /** An image of a build that is gone: both steps are carried out, and then the check of the
      references refuses what they have made. */
  lemma OrphanIsRefused()
    ensures
      var t := ORPHANED;
      && Migratable(t) && !Openable(Database(0, Some(t)))
      && Upgraded(Database(0, Some(t))).Some? && Upgraded(Database(0, Some(t))).value.version == CURRENT_VERSION
  {
    hide MigrateV0ToV1, MigrateV1ToV2, CurrentInvariants, Upgraded, Openable;
    OldestOpenIff(ORPHANED);
    OldestUpgrades(ORPHANED);
    MigratesIff(ORPHANED);
    assert 0 in ORPHANED.images && ORPHANED.images[0].build !in ORPHANED.builds;
  }

  const ORPHANED := NEW_TABLES.(images := map[0 := Image(99, "challenge")])

  lemma OldestUpgrades(t: Tables)
    ensures
      var d, first := Database(0, Some(t)), MigrateV0ToV1(t);
      && (first.None? ==> Upgraded(d).None? && !Openable(d))
      && (first.Some? ==>
            var last := MigrateV1ToV2(first.value);
            Upgraded(d) == Some(Database(2, Some(last))) && Opened(d) == Database(2, Some(last)) && (Openable(d) <==> CurrentInvariants(last)))
  {
    hide MigrateV0ToV1, MigrateV1ToV2, CurrentInvariants;
    var d, first := Database(0, Some(t)), MigrateV0ToV1(t);
    UpgradedStep(d);
    if first.Some? {
      var mid := Database(1, Some(first.value));
      assert Migrated(d) == Some(mid);
      UpgradedStep(mid);
      UpgradedStep(Database(2, Some(MigrateV1ToV2(first.value))));
    }
  }

  /** `d` is `s` after some of the migrations. */
  ghost predicate Reached(s: Database, d: Database) {
    || d == s
    || Migrated(s) == Some(d)
    || (Migrated(s).Some? && Migrated(Migrated(s).value) == Some(d))
  }

  lemma MigratedNext(d: Database)
    ensures Migrated(d).Some? ==> Migrated(d).value.version == d.version + 1 <= CURRENT_VERSION && Migrated(d).value.tables.Some?
    ensures Migrated(d).Some? ==> d.tables.Some? && (d.version == 0 || d.version == 1)
  {
    hide MigrateV0ToV1, MigrateV1ToV2;
  }

  ghost predicate Required(d: Database) {
    d.tables.Some? && d.version < CURRENT_VERSION
  }

  ghost predicate HasBackup(s: Disk, d: Disk) {
    exists now :: now !in s.backups && now in d.backups && d.backups[now] == s.database
  }

  ghost predicate BackupsKept(s: Disk, d: Disk) {
    forall now | now in s.backups :: now in d.backups && d.backups[now] == s.backups[now]
  }

  /** A database in use is at the current version and passes the checks. */
  ghost predicate Usable(d: Database) {
    d.version == CURRENT_VERSION && d.tables.Some? && CurrentInvariants(d.tables.value)
  }

  /** What one attempt to open the database may leave behind, wherever it stops. */
  ghost predicate Attempt(s: Disk, d: Disk) {
    && BackupsKept(s, d)
    && (s.latch.Some? ==> d == s)
    && (s.database.tables.None? ==> d.database == s.database || d.database == Database(CURRENT_VERSION, Some(NEW_TABLES)))
    && (s.database.tables.Some? ==>
          && Reached(s.database, d.database)
          && (d.database != s.database ==> HasBackup(s, d))
          && (d.database != s.database ==> d.latch.Some? || Usable(d.database)))
    && (!Required(s.database) ==> d.backups == s.backups && d.latch == s.latch)
  }

  /** In the middle of a migration: the latch is there, and the backup before any change. */
  ghost predicate Latched(s: Disk, d: Disk) {
    && s.latch == None && d.latch.Some? && s.database.tables.Some? && Required(s.database)
    && Reached(s.database, d.database) && BackupsKept(s, d)
    && (d.database != s.database ==> HasBackup(s, d))
  }

  lemma LatchedIsAttempt(s: Disk)
    ensures forall d :: Latched(s, d) ==> Attempt(s, d)
    ensures s.latch == None ==> Attempt(s, s)
  {
    hide Reached, Usable;
    assert s.database.tables.Some? ==> Reached(s.database, s.database) by { ReachedSelf(s.database); }
  }

  lemma ReachedSelf(d: Database)
    ensures Reached(d, d)
  {
  }

  // ---------------------------------------------------------------- backup

  /** Only staging files and new backups differ. */
  ghost predicate BackingUp(s: Disk, d: Disk) {
    d == s.(staged := d.staged, backups := d.backups) && BackupsKept(s, d)
  }

  /** Takes a snapshot, and publishes it once it is complete. */
  method BackupDatabaseBeforeMigration(h: Host, now: nat) returns (ok: bool)
    modifies h
    ensures BackingUp(old(h.disk), h.disk)
    ensures ok ==> HasBackup(old(h.disk), h.disk)
    ensures h.reliable && now !in old(h.disk).staged && now !in old(h.disk).backups ==> ok
    ensures old(h.crashPoints) <= h.crashPoints
    ensures forall d | d in h.crashPoints :: d in old(h.crashPoints) || BackingUp(old(h.disk), d)
  {
    ok := h.Reserve(now);
    if !ok {
      return;
    }
    ok := h.Snapshot(now);
    if !ok {
      var _ := h.RemoveStaged(now);
      return;
    }
    ok := h.Publish(now);
    if !ok {
      var _ := h.RemoveStaged(now);
      return;
    }
    ok := h.RemoveStaged(now);
  }

  // --------------------------------------------------------------- migrating

  /** Nothing but the database differs, and it has come some way. */
  ghost predicate Migrating(s: Disk, d: Disk) {
    d == s.(database := d.database) && Reached(s.database, d.database)
  }

  lemma MigratingOn(s: Disk, mid: Disk, first: Database)
    requires Migrating(s, mid) && s.database == first && Migrated(mid.database).Some?
    requires mid.database == first || Migrated(first) == Some(mid.database)
    ensures Migrating(s, mid.(database := Migrated(mid.database).value))
  {
  }

  /** One transaction per version. */
  method MigrateDatabase(h: Host) returns (ok: bool)
    requires h.disk.database.tables.Some?
    modifies h
    ensures Migrating(old(h.disk), h.disk)
    ensures ok ==> Upgraded(old(h.disk.database)) == Some(h.disk.database) && h.disk.database.version >= CURRENT_VERSION
    ensures h.reliable ==> (ok <==> Upgraded(old(h.disk.database)).Some?)
    ensures old(h.crashPoints) <= h.crashPoints
    ensures forall d | d in h.crashPoints :: d in old(h.crashPoints) || Migrating(old(h.disk), d)
  {
    hide Migrated, Reached, Migrating, Upgraded;
    ghost var s := h.disk;
    UpgradedStep(s.database);
    ReachedSelf(s.database);
    MigratingSelf(s);
    var version := h.disk.database.version;
    while version < CURRENT_VERSION
      invariant version == h.disk.database.version && Migrating(s, h.disk)
      invariant h.disk.database == s.database || (Migrated(s.database) == Some(h.disk.database) && version <= CURRENT_VERSION)
        || version >= CURRENT_VERSION
      invariant h.disk == s.(database := h.disk.database)
      invariant Upgraded(h.disk.database) == Upgraded(s.database)
      invariant old(h.crashPoints) <= h.crashPoints
      invariant forall d | d in h.crashPoints :: d in old(h.crashPoints) || Migrating(s, d)
      decreases CURRENT_VERSION - version
    {
      ghost var mid := h.disk;
      MigratedNext(h.disk.database);
      UpgradedStep(h.disk.database);
      var next := Migrated(h.disk.database);
      if next.None? {
        return false;
      }
      MigratingOn(s, mid, s.database);
      ok := h.Commit(next.value);
      if !ok {
        return;
      }
      SecondIsLast(s.database, mid.database, next.value);
      version := next.value.version;
    }
    UpgradedStep(h.disk.database);
    ok := true;
  }

  lemma MigratingSelf(s: Disk)
    ensures Migrating(s, s)
  {
  }

  lemma SecondIsLast(first: Database, mid: Database, next: Database)
    requires Migrated(mid) == Some(next) && (mid == first || Migrated(first) == Some(mid))
    ensures Migrated(first) == Some(next) || next.version >= CURRENT_VERSION
  {
    MigratedNext(mid);
    MigratedNext(first);
  }

  /** The checks every database must pass before it is used. */
  method ValidateCurrentDatabaseSchema(h: Host) returns (ok: bool)
    requires h.disk.database.tables.Some?
    ensures ok ==> CurrentInvariants(h.disk.database.tables.value)
    ensures h.reliable && CurrentInvariants(h.disk.database.tables.value) ==> ok
  {
    var fault: bool := *;
    ok := CurrentInvariants(h.disk.database.tables.value) && (h.reliable || !fault);
  }

  ghost predicate MayMigrate(s: Disk, d: Disk, allowChanges: bool) {
    allowChanges && Required(s.database) && Migrating(s, d)
  }

  /** Creates, migrates or just checks the tables. */
  method EnsureDatabaseSchema(h: Host, allowChanges: bool) returns (ok: bool)
    modifies h
    ensures ok ==> Usable(h.disk.database) && Openable(old(h.disk.database)) && h.disk.database == Opened(old(h.disk.database))
    ensures h.reliable && allowChanges ==> (ok <==> Openable(old(h.disk.database)))
    ensures !allowChanges ==> h.disk == old(h.disk)
    ensures old(h.disk.database.tables).None? ==>
      h.disk == old(h.disk) || h.disk == old(h.disk).(database := Database(CURRENT_VERSION, Some(NEW_TABLES)))
    ensures old(h.disk.database.tables).Some? ==> Migrating(old(h.disk), h.disk) && (!Required(old(h.disk.database)) ==> h.disk == old(h.disk))
    ensures old(h.crashPoints) <= h.crashPoints
    ensures forall d | d in h.crashPoints :: d in old(h.crashPoints) || d == h.disk || MayMigrate(old(h.disk), d, allowChanges)
  {
    hide Migrated, Reached, Migrating, CurrentInvariants, Upgraded;
    MigratingSelf(h.disk);
    UpgradedStep(h.disk.database);
    NewIsUsable();
    var version := h.disk.database.version;
    if version > CURRENT_VERSION {
      return false;
    }
    if h.disk.database.tables.None? {
      if version != 0 || !allowChanges {
        return false;
      }
      ok := h.Commit(Database(CURRENT_VERSION, Some(NEW_TABLES)));
      if ok {
        ok := ValidateCurrentDatabaseSchema(h);
      }
      return;
    }
    if version < CURRENT_VERSION {
      if !allowChanges {
        return false;
      }
      ghost var s := h.disk;
      ok := MigrateDatabase(h);
      MigratingTables(s, h.disk);
      if !ok {
        return;
      }
    }
    ok := ValidateCurrentDatabaseSchema(h);
  }

  lemma NewIsUsable()
    ensures CurrentInvariants(NEW_TABLES)
  {
  }

  lemma MigratingTables(s: Disk, d: Disk)
    requires Migrating(s, d) && s.database.tables.Some? && s.database.version <= CURRENT_VERSION
    ensures d.database.tables.Some? && d.database.version <= CURRENT_VERSION
  {
    MigratedNext(s.database);
    if Migrated(s.database).Some? { MigratedNext(Migrated(s.database).value); }
  }

  // --------------------------------------------------------------- startup

  lemma LatchedFirst(s: Disk, d: Disk)
    requires s.latch == None && Required(s.database) && d == s.(latch := d.latch) && d.latch.Some?
    ensures Latched(s, d)
  {
    ReachedSelf(s.database);
  }

  lemma LatchedBackup(s: Disk, mid: Disk)
    requires Latched(s, mid) && mid.database == s.database && mid.backups == s.backups
    ensures forall d :: BackingUp(mid, d) ==> Latched(s, d)
    ensures forall d :: HasBackup(mid, d) ==> HasBackup(s, d)
  {
    hide Reached, Required;
  }

  lemma LatchedMigrating(s: Disk, mid: Disk)
    requires Latched(s, mid) && mid.database == s.database && HasBackup(s, mid)
    ensures forall d :: Migrating(mid, d) ==> Latched(s, d)
  {
    hide Required;
    forall d | Migrating(mid, d) ensures Latched(s, d) {
      assert d.backups == mid.backups;
    }
  }

  lemma LatchedMarked(s: Disk, mid: Disk)
    requires Latched(s, mid)
    ensures forall d: Disk :: d == mid.(latch := d.latch) && d.latch.Some? ==> Latched(s, d)
  {
    hide Required, Reached;
  }

  lemma Unlatched(s: Disk, mid: Disk)
    requires Latched(s, mid) && Usable(mid.database)
    ensures Attempt(s, mid.(latch := None))
  {
    hide Reached, Usable;
  }

  lemma BackingUpParts(s: Disk, d: Disk)
    requires BackingUp(s, d)
    ensures d.database == s.database && d.latch == s.latch
  {
  }

  lemma SettledAttempt(s: Disk, d: Disk)
    requires s.latch == None && !Required(s.database)
    requires d == s || (s.database.tables.None? && d == s.(database := Database(CURRENT_VERSION, Some(NEW_TABLES))))
    ensures Attempt(s, d)
  {
    ReachedSelf(s.database);
  }

  lemma RefusedAttempt(s: Disk)
    ensures Attempt(s, s)
  {
    ReachedSelf(s.database);
  }

  /** Opens the database.  While the latch of an earlier attempt exists, nothing is touched. */
  method InitDatabase(h: Host, allowChanges: bool, now: nat) returns (ok: bool)
    modifies h
    ensures Attempt(old(h.disk), h.disk)
    ensures ok ==> Usable(h.disk.database) && h.disk.latch == None && h.disk.database == Opened(old(h.disk.database))
    ensures h.reliable && allowChanges && old(h.disk.latch) == None && now !in old(h.disk).staged && now !in old(h.disk).backups ==>
      && (ok <==> Openable(old(h.disk.database)))
      && (!ok && Required(old(h.disk.database)) ==> h.disk.latch == Some(Failed))
    ensures !allowChanges ==> h.disk == old(h.disk)
    ensures old(h.disk.latch).Some? ==> !ok && h.disk == old(h.disk) && h.crashPoints == old(h.crashPoints)
    ensures old(h.crashPoints) <= h.crashPoints
    ensures forall d | d in h.crashPoints :: d in old(h.crashPoints) || Attempt(old(h.disk), d)
  {
    hide *;
    ghost var s := h.disk;
    RefusedAttempt(s);
    if h.disk.latch.Some? {
      return false;
    }
    var required := h.disk.database.tables.Some? && h.disk.database.version < CURRENT_VERSION;
    RequiredIs(s.database);
    if !allowChanges || !required {
      if !required {
        SettledAttempt(s, s);
        if s.database.tables.None? { SettledAttempt(s, s.(database := Database(CURRENT_VERSION, Some(NEW_TABLES)))); }
      }
      NothingToMigrate(s, allowChanges);
      ok := EnsureDatabaseSchema(h, allowChanges);
      return;
    }
    LatchedIsAttempt(s);
    LatchedFirst(s, s.(latch := Some(Attempting)));
    ok := h.CreateLatch();
    if !ok {
      return;
    }
    ghost var latched := h.disk;
    LatchedBackup(s, latched);
    ok := BackupDatabaseBeforeMigration(h, now);
    ghost var saved := h.disk;
    BackingUpParts(latched, saved);
    if !ok {
      LatchedMarked(s, saved);
      LatchIsThere(s, saved);
      var _ := h.MarkLatchFailed();
      return;
    }
    LatchedMigrating(s, saved);
    WillMigrate(saved, allowChanges);
    ok := EnsureDatabaseSchema(h, allowChanges);
    LatchedMarked(s, h.disk);
    LatchIsThere(s, h.disk);
    if !ok {
      var _ := h.MarkLatchFailed();
      return;
    }
    Unlatched(s, h.disk);
    ok := h.RemoveLatch();
  }

  lemma RequiredIs(d: Database)
    ensures Required(d) <==> d.tables.Some? && d.version < CURRENT_VERSION
  {
  }

  lemma NothingToMigrate(s: Disk, allowChanges: bool)
    ensures !allowChanges || !Required(s.database) ==> forall d :: !MayMigrate(s, d, allowChanges)
  {
  }

  lemma WillMigrate(s: Disk, allowChanges: bool)
    ensures forall d :: MayMigrate(s, d, allowChanges) ==> Migrating(s, d)
  {
  }

  lemma LatchIsThere(s: Disk, d: Disk)
    requires Latched(s, d)
    ensures d.latch.Some?
  {
  }

  // ------------------------------------------------- any number of startups

  /** Disks left by one startup after another, each of which may have been cut short. */
  ghost predicate History(disks: seq<Disk>) {
    |disks| > 0 && forall k | 0 <= k < |disks| - 1 :: Attempt(disks[k], disks[k + 1])
  }

  /** Once a latch is there, no startup changes anything. */
  lemma {:induction false} LatchStopsEverything(disks: seq<Disk>, j: nat, k: nat)
    requires History(disks) && j <= k < |disks| && disks[j].latch.Some?
    ensures disks[k] == disks[j]
    decreases k
  {
    if k > j {
      LatchStopsEverything(disks, j, k - 1);
      assert Attempt(disks[k - 1], disks[k]);
    }
  }

  lemma ReachedVersions(s: Database, d: Database)
    requires Reached(s, d)
    ensures d == s || (d.version > s.version && d.tables.Some? && s.tables.Some? && d.version <= CURRENT_VERSION)
  {
    MigratedNext(s);
    if Migrated(s).Some? { MigratedNext(Migrated(s).value); }
  }

  /** Versions never go back, and every change of an existing database raises the version. */
  lemma VersionsIncrease(s: Disk, d: Disk)
    requires Attempt(s, d) && s.database.tables.Some?
    ensures d.database == s.database || d.database.version > s.database.version
    ensures d.database.tables.Some?
  {
    hide Migrated;
    ReachedVersions(s.database, d.database);
  }

  ghost predicate IsBackedUp(d: Disk, original: Database) {
    exists now :: now in d.backups && d.backups[now] == original
  }

  /** However many startups there were and wherever they stopped: the database is still the
      original, or the original is in a backup and the database is either behind a latch or
      current and checked. */
  lemma {:induction false} OriginalSurvives(disks: seq<Disk>, k: nat)
    requires History(disks) && k < |disks| && disks[0].database.tables.Some?
    ensures disks[k].database.tables.Some? && disks[k].database.version >= disks[0].database.version
    ensures
      || disks[k].database == disks[0].database
      || (IsBackedUp(disks[k], disks[0].database) && (disks[k].latch.Some? || Usable(disks[k].database)))
    decreases k
  {
    if k > 0 {
      OriginalSurvives(disks, k - 1);
      assert Attempt(disks[k - 1], disks[k]);
      OneMoreStartup(disks[0].database, disks[k - 1], disks[k]);
    }
  }

  lemma OneMoreStartup(original: Database, s: Disk, d: Disk)
    requires Attempt(s, d) && s.database.tables.Some? && s.database.version >= original.version
    requires s.database == original || (IsBackedUp(s, original) && (s.latch.Some? || Usable(s.database)))
    ensures d.database.tables.Some? && d.database.version >= original.version
    ensures d.database == original || (IsBackedUp(d, original) && (d.latch.Some? || Usable(d.database)))
  {
    hide Migrated, CurrentInvariants;
    VersionsIncrease(s, d);
    if s.database == original && d.database != original {
      assert HasBackup(s, d);
    } else if s.database != original && s.latch.None? {
      ReachedVersions(s.database, d.database);
    }
  }
}
