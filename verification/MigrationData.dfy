/**
 What the schema migrations do to the rows (database.go).  A table maps row ids to rows.
 */
module MigrationData {
  import Safety

  datatype Option<+T> = None | Some(value: T)

  type Table<R> = map<nat, R>

  datatype Host = Host(challenge: string, name: string, idx: int, target: string)
  datatype PortName = PortName(challenge: string, name: string, host: string, port: int)
  datatype Image = Image(build: int, host: string)
  datatype ImagePort = ImagePort(image: int, port: string)
  datatype LookupDatum = LookupDatum(build: int, key: string, value: string)
  datatype PortAssignment = PortAssignment(instance: int, name: string, port: int)
  datatype ContainerOption = ContainerOption(challenge: string, host: string, rest: string, seccomp: string)
  datatype Build = Build(challenge: string, schema: string, rest: string)

  /** The columns that older databases do not have. */
  datatype Column = Seccomp | SeccompTweaks | SourceDigest | MetadataDigest

  /** Builds, images and instances are keyed by their ids.  `annotations` are the challenges
      that the rows of hints, tags and attributes name, `instances` the builds that instances
      name, `containers` the instance of every container.  `None` stands for a table the
      database does not have yet. */
  datatype Tables = Tables(
    challenges: set<string>,
    annotations: Table<string>,
    hosts: Table<Host>, portNames: Table<PortName>,
    builds: Table<Build>, images: Table<Image>, imagePorts: Table<ImagePort>, lookupData: Table<LookupDatum>,
    instances: Table<int>, portAssignments: Table<PortAssignment>, containers: map<string, int>,
    containerOptions: Table<ContainerOption>,
    schemas: Option<map<string, bool>>, networkOptions: Option<map<string, bool>>,
    retiredContainers: Option<set<string>>, retiredNetworks: Option<set<string>>,
    columns: set<Column>, indexes: set<string>)

  // ------------------------------------------------------------- duplicates

  /** Keeps, of equal rows, the one with the smallest id. */
  function WithoutDuplicates<R(==,!new)>(rows: Table<R>): Table<R> {
    map k | k in rows && (forall j | j in rows && rows[j] == rows[k] :: k <= j) :: rows[k]
  }

  function RowsOf<R(==,!new)>(rows: Table<R>): (all: set<R>)
    ensures forall r :: r in all <==> exists k :: k in rows && rows[k] == r
  {
    set k | k in rows :: rows[k]
  }

  predicate UniqueBy<R(!new), K(==)>(rows: Table<R>, key: R -> K) {
    forall a, b | a in rows && b in rows && key(rows[a]) == key(rows[b]) :: a == b
  }

  /** Rows that differ have different keys. */
  predicate Compatible<R(==,!new), K(==)>(rows: Table<R>, key: R -> K) {
    forall a, b | a in rows && b in rows && key(rows[a]) == key(rows[b]) :: rows[a] == rows[b]
  }

  /** Every row has a copy with the smallest id. */
  lemma {:induction false} SmallestCopy<R(!new)>(rows: Table<R>, k: nat)
    requires k in rows
    ensures exists m :: m in rows && rows[m] == rows[k] && forall j | j in rows && rows[j] == rows[k] :: m <= j
    decreases k
  {
    if j :| j in rows && rows[j] == rows[k] && j < k {
      SmallestCopy(rows, j);
    }
  }

  /** Removing duplicates loses no row, leaves none twice, and leaves row ids alone. */
  lemma DuplicatesRemoved<R(!new)>(rows: Table<R>)
    ensures RowsOf(WithoutDuplicates(rows)) == RowsOf(rows)
    ensures forall a, b | a in WithoutDuplicates(rows) && b in WithoutDuplicates(rows) && WithoutDuplicates(rows)[a] == WithoutDuplicates(rows)[b] :: a == b
    ensures forall k | k in WithoutDuplicates(rows) :: k in rows && WithoutDuplicates(rows)[k] == rows[k]
  {
    var kept := WithoutDuplicates(rows);
    forall r | r in RowsOf(rows)
      ensures r in RowsOf(kept)
    {
      var k :| k in rows && rows[k] == r;
      SmallestCopy(rows, k);
      var m :| m in rows && rows[m] == rows[k] && forall j | j in rows && rows[j] == rows[k] :: m <= j;
      assert m in kept && kept[m] == r;
    }
  }

  /** A key is unique afterwards exactly when rows that differ had different keys. */
  lemma UniqueAfterCleanup<R(!new), K>(rows: Table<R>, key: R -> K)
    ensures UniqueBy(WithoutDuplicates(rows), key) <==> Compatible(rows, key)
  {
    var kept := WithoutDuplicates(rows);
    DuplicatesRemoved(rows);
    if UniqueBy(kept, key) {
      forall a, b | a in rows && b in rows && key(rows[a]) == key(rows[b])
        ensures rows[a] == rows[b]
      {
        SmallestCopy(rows, a);
        SmallestCopy(rows, b);
        var m :| m in rows && rows[m] == rows[a] && forall j | j in rows && rows[j] == rows[a] :: m <= j;
        var n :| n in rows && rows[n] == rows[b] && forall j | j in rows && rows[j] == rows[b] :: n <= j;
        assert m in kept && n in kept;
      }
    }
    if Compatible(rows, key) {
      forall a, b | a in kept && b in kept && key(kept[a]) == key(kept[b])
        ensures a == b
      {
        assert rows[a] == rows[b];
      }
    }
  }

  // --------------------------------------------------------- version 0 to 1

  function Cleaned(t: Tables): Tables {
    t.(portNames := WithoutDuplicates(t.portNames), imagePorts := WithoutDuplicates(t.imagePorts),
       lookupData := WithoutDuplicates(t.lookupData), portAssignments := WithoutDuplicates(t.portAssignments),
       containerOptions := WithoutDuplicates(WithSeccomp(t)),
       columns := t.columns + {Seccomp, SeccompTweaks})
  }

  function WithSeccomp(t: Tables): Table<ContainerOption> {
    if Seccomp in t.columns then t.containerOptions else map k | k in t.containerOptions :: t.containerOptions[k].(seccomp := "")
  }

  /** The eight queries that look for rows no index could hold. */
  predicate NoConflicts(t: Tables) {
    && UniqueBy(t.hosts, (r: Host) => (r.challenge, r.idx))
    && UniqueBy(t.portNames, (r: PortName) => (r.challenge, r.name))
    && UniqueBy(t.portNames, (r: PortName) => (r.challenge, r.host, r.port))
    && UniqueBy(t.images, (r: Image) => (r.build, r.host))
    && UniqueBy(t.lookupData, (r: LookupDatum) => (r.build, r.key))
    && UniqueBy(t.portAssignments, (r: PortAssignment) => (r.instance, r.name))
    && UniqueBy(t.portAssignments, (r: PortAssignment) => r.port)
    && UniqueBy(t.containerOptions, (r: ContainerOption) => (r.challenge, r.host))
  }

  /** The nine indexes: the eight above and the one on image ports. */
  predicate Indexable(t: Tables) {
    NoConflicts(t) && UniqueBy(t.imagePorts, (r: ImagePort) => (r.image, r.port))
  }

  const UNIQUE_INDEXES := {
    "hostsOrderIndex", "portNamesNameIndex", "portNamesEndpointIndex", "imagesHostIndex", "imagePortsPortIndex",
    "lookupDataKeyIndex", "portAssignmentsNameIndex", "portAssignmentsPortIndex", "containerOptionsHostIndex"}

  /** Indexes that no migration makes. */
  const PLAIN_INDEXES := {"tagIndex", "attributeIndex", "hostsIndex", "schemaIndex"}

  function MigrateV0ToV1(t: Tables): Option<Tables> {
    var cleaned := Cleaned(t);
    if !NoConflicts(cleaned) then None
    else if !Indexable(cleaned) then None
    else Some(cleaned.(indexes := t.indexes + UNIQUE_INDEXES))
  }

  /** What a caller can check beforehand: where whole rows are repeated it does not matter. */
  predicate Migratable(t: Tables) {
    && UniqueBy(t.hosts, (r: Host) => (r.challenge, r.idx))
    && Compatible(t.portNames, (r: PortName) => (r.challenge, r.name))
    && Compatible(t.portNames, (r: PortName) => (r.challenge, r.host, r.port))
    && UniqueBy(t.images, (r: Image) => (r.build, r.host))
    && Compatible(t.lookupData, (r: LookupDatum) => (r.build, r.key))
    && Compatible(t.portAssignments, (r: PortAssignment) => (r.instance, r.name))
    && Compatible(t.portAssignments, (r: PortAssignment) => r.port)
    && (forall a, b | a in t.containerOptions && b in t.containerOptions && SameHost(t.containerOptions[a], t.containerOptions[b]) ::
          AgreeIn(t.columns, t.containerOptions[a], t.containerOptions[b]))
  }

  predicate SameHost(r: ContainerOption, q: ContainerOption) {
    r.challenge == q.challenge && r.host == q.host
  }

  /** Where the column is not there yet it makes no difference. */
  predicate AgreeIn(columns: set<Column>, r: ContainerOption, q: ContainerOption) {
    r.rest == q.rest && (Seccomp in columns ==> r.seccomp == q.seccomp)
  }

  lemma OptionsCompatible(t: Tables)
    ensures Compatible(WithSeccomp(t), (r: ContainerOption) => (r.challenge, r.host)) <==>
      forall a, b | a in t.containerOptions && b in t.containerOptions && SameHost(t.containerOptions[a], t.containerOptions[b]) ::
        AgreeIn(t.columns, t.containerOptions[a], t.containerOptions[b])
  {
    var filled := WithSeccomp(t);
    forall a, b | a in filled && b in filled
      ensures (filled[a].challenge, filled[a].host) == (filled[b].challenge, filled[b].host) <==> SameHost(t.containerOptions[a], t.containerOptions[b])
      ensures SameHost(t.containerOptions[a], t.containerOptions[b]) ==>
        (filled[a] == filled[b] <==> AgreeIn(t.columns, t.containerOptions[a], t.containerOptions[b]))
    {
    }
  }

  /** The check of image ports is missing from the queries because it cannot fail. */
  lemma ChecksSuffice(t: Tables)
    ensures NoConflicts(Cleaned(t)) ==> Indexable(Cleaned(t))
  {
    hide NoConflicts;
    UniqueAfterCleanup(t.imagePorts, (r: ImagePort) => (r.image, r.port));
  }

  /** The migration succeeds exactly on databases whose distinct rows fit the indexes. */
  lemma MigratesIff(t: Tables)
    ensures MigrateV0ToV1(t).Some? <==> Migratable(t)
  {
    ChecksSuffice(t);
    UniqueAfterCleanup(t.portNames, (r: PortName) => (r.challenge, r.name));
    UniqueAfterCleanup(t.portNames, (r: PortName) => (r.challenge, r.host, r.port));
    UniqueAfterCleanup(t.lookupData, (r: LookupDatum) => (r.build, r.key));
    UniqueAfterCleanup(t.portAssignments, (r: PortAssignment) => (r.instance, r.name));
    UniqueAfterCleanup(t.portAssignments, (r: PortAssignment) => r.port);
    UniqueAfterCleanup(WithSeccomp(t), (r: ContainerOption) => (r.challenge, r.host));
    OptionsCompatible(t);
    hide WithoutDuplicates, UniqueBy, Compatible, SameHost, AgreeIn;
  }

  /** `q` is `r`, with the seccomp profile it had, or none where there was no such column. */
  ghost predicate Carries(columns: set<Column>, r: ContainerOption, q: ContainerOption) {
    && q.challenge == r.challenge && q.host == r.host && q.rest == r.rest
    && q.seccomp == (if Seccomp in columns then r.seccomp else "")
  }

  ghost predicate Carried(columns: set<Column>, r: ContainerOption, rows: Table<ContainerOption>) {
    exists j :: j in rows && Carries(columns, r, rows[j])
  }

  ghost predicate CarriedFrom(columns: set<Column>, rows: Table<ContainerOption>, q: ContainerOption) {
    exists k :: k in rows && Carries(columns, rows[k], q)
  }

  /** Every row of the one is carried by a row of the other, both ways. */
  ghost predicate SameOptions(columns: set<Column>, old_: Table<ContainerOption>, now: Table<ContainerOption>) {
    && (forall k | k in old_ :: Carried(columns, old_[k], now))
    && (forall j | j in now :: CarriedFrom(columns, old_, now[j]))
  }

  lemma OptionsCarried(t: Tables, now: Table<ContainerOption>)
    requires RowsOf(now) == RowsOf(WithSeccomp(t))
    ensures SameOptions(t.columns, t.containerOptions, now)
  {
    var old_, filled := t.containerOptions, WithSeccomp(t);
    assert filled.Keys == old_.Keys && forall k | k in old_ :: Carries(t.columns, old_[k], filled[k]);
    hide WithSeccomp, Carries;
    forall k | k in old_
      ensures Carried(t.columns, old_[k], now)
    {
      assert filled[k] in RowsOf(filled);
      var j :| j in now && now[j] == filled[k];
    }
    forall j | j in now
      ensures CarriedFrom(t.columns, old_, now[j])
    {
      assert now[j] in RowsOf(now);
      var k :| k in filled && filled[k] == now[j];
    }
  }

  /** No table loses a row that it does not keep a copy of. */
  ghost predicate SameRows(s: Tables, d: Tables) {
    && d.challenges == s.challenges && d.annotations == s.annotations && d.hosts == s.hosts
    && d.builds == s.builds && d.images == s.images && d.instances == s.instances && d.containers == s.containers
    && RowsOf(d.portNames) == RowsOf(s.portNames)
    && RowsOf(d.imagePorts) == RowsOf(s.imagePorts)
    && RowsOf(d.lookupData) == RowsOf(s.lookupData)
    && RowsOf(d.portAssignments) == RowsOf(s.portAssignments)
    && SameOptions(s.columns, s.containerOptions, d.containerOptions)
  }

  lemma IndexingChangesNoRow(t: Tables, names: set<string>)
    ensures Indexable(t.(indexes := names)) <==> Indexable(t)
  {
    hide UniqueBy;
  }

  lemma V1KeepsRows(t: Tables)
    requires MigrateV0ToV1(t).Some?
    ensures SameRows(t, MigrateV0ToV1(t).value) && Indexable(MigrateV0ToV1(t).value)
  {
    hide NoConflicts, Indexable;
    DuplicatesRemoved(t.portNames);
    DuplicatesRemoved(t.imagePorts);
    DuplicatesRemoved(t.lookupData);
    DuplicatesRemoved(t.portAssignments);
    DuplicatesRemoved(WithSeccomp(t));
    OptionsCarried(t, MigrateV0ToV1(t).value.containerOptions);
    IndexingChangesNoRow(Cleaned(t), t.indexes + UNIQUE_INDEXES);
    hide WithoutDuplicates, WithSeccomp, UNIQUE_INDEXES, SameOptions;
  }

  lemma FirstStepUnrelated(t: Tables)
    requires MigrateV0ToV1(t).Some?
    ensures
      var d := MigrateV0ToV1(t).value;
      && d.retiredContainers == t.retiredContainers && d.containers == t.containers && d.challenges == t.challenges
      && d.retiredNetworks == t.retiredNetworks && d.schemas == t.schemas
      && d.networkOptions == t.networkOptions && d.indexes == t.indexes + UNIQUE_INDEXES && d.columns == t.columns + {Seccomp, SeccompTweaks}
  {
    hide NoConflicts, Indexable;
  }

  // --------------------------------------------------------- version 1 to 2

  /** Adds defaults for the keys that have no row yet. */
  function WithDefaults(rows: Option<map<string, bool>>, defaults: map<string, bool>): map<string, bool> {
    defaults + (if rows.Some? then rows.value else map[])
  }

  function MigrateV1ToV2(t: Tables): Tables {
    t.(schemas := Some(WithDefaults(t.schemas, map k | k in t.builds :: t.builds[k].schema := Safety.IsManual(t.builds[k].schema))),
       networkOptions := Some(WithDefaults(t.networkOptions, map c | c in t.challenges :: c := false)),
       retiredContainers := if t.retiredContainers.None? then Some({}) else t.retiredContainers,
       retiredNetworks := if t.retiredNetworks.None? then Some({}) else t.retiredNetworks,
       columns := t.columns + {SourceDigest, MetadataDigest})
  }

  predicate HasHost(hosts: Table<Host>, challenge: string, name: string) {
    exists k :: k in hosts && hosts[k].challenge == challenge && hosts[k].name == name
  }

  /** In the tables that never hold a row twice. */
  predicate DistinctRowsRefer(t: Tables) {
    && (forall k | k in t.annotations :: t.annotations[k] in t.challenges)
    && (forall k | k in t.hosts :: t.hosts[k].challenge in t.challenges)
    && (forall k | k in t.builds :: t.builds[k].challenge in t.challenges)
    && (forall k | k in t.images :: t.images[k].build in t.builds)
    && (forall k | k in t.instances :: t.instances[k] in t.builds)
    && (forall c | c in t.containers :: t.containers[c] in t.instances)
  }

  /** In the tables that may. */
  predicate RepeatedRowsRefer(t: Tables) {
    && (forall k | k in t.portNames :: t.portNames[k].challenge in t.challenges && HasHost(t.hosts, t.portNames[k].challenge, t.portNames[k].host))
    && (forall k | k in t.imagePorts :: t.imagePorts[k].image in t.images)
    && (forall k | k in t.lookupData :: t.lookupData[k].build in t.builds)
    && (forall k | k in t.portAssignments :: t.portAssignments[k].instance in t.instances)
    && (forall k | k in t.containerOptions :: t.containerOptions[k].challenge in t.challenges)
  }

  predicate RowsRefer(t: Tables) {
    DistinctRowsRefer(t) && RepeatedRowsRefer(t)
  }

  predicate OptionsRefer(t: Tables) {
    t.networkOptions.Some? ==> forall c | c in t.networkOptions.value :: c in t.challenges
  }

  /** No row names one that is not there. */
  predicate References(t: Tables) {
    RowsRefer(t) && OptionsRefer(t)
  }

  /** No container is owned and waiting for removal at once. */
  predicate OwnedApart(t: Tables) {
    t.retiredContainers.Some? ==> t.containers.Keys !! t.retiredContainers.value
  }

  /** What is checked of every version 2 database before it is used. */
  predicate CurrentInvariants(t: Tables) {
    && t.schemas.Some? && t.networkOptions.Some? && t.retiredContainers.Some? && t.retiredNetworks.Some?
    && {Seccomp, SeccompTweaks, SourceDigest, MetadataDigest} <= t.columns
    && UNIQUE_INDEXES + PLAIN_INDEXES <= t.indexes
    && References(t)
    && (forall k | k in t.builds :: t.builds[k].schema in t.schemas.value)
    && (forall c | c in t.challenges :: c in t.networkOptions.value)
    && OwnedApart(t)
  }

  // ------------------------------------------------------------- references

  /** What one table's rows say does not depend on how often they say it. */
  lemma SameRowsAgree<R(!new)>(a: Table<R>, b: Table<R>, holds: R -> bool)
    requires RowsOf(a) == RowsOf(b)
    ensures (forall k | k in a :: holds(a[k])) <==> (forall k | k in b :: holds(b[k]))
  {
    if forall k | k in a :: holds(a[k]) {
      forall k | k in b ensures holds(b[k]) { assert b[k] in RowsOf(a); }
    }
    if forall k | k in b :: holds(b[k]) {
      forall k | k in a ensures holds(a[k]) { assert a[k] in RowsOf(b); }
    }
  }

  /** Filling in a column leaves the others alone. */
  lemma SameOptionsRefer(columns: set<Column>, old_: Table<ContainerOption>, now: Table<ContainerOption>, challenges: set<string>)
    requires SameOptions(columns, old_, now)
    ensures (forall k | k in old_ :: old_[k].challenge in challenges) <==> (forall k | k in now :: now[k].challenge in challenges)
  {
    if forall k | k in old_ :: old_[k].challenge in challenges {
      forall j | j in now ensures now[j].challenge in challenges { assert CarriedFrom(columns, old_, now[j]); }
    }
    if forall k | k in now :: now[k].challenge in challenges {
      forall k | k in old_ ensures old_[k].challenge in challenges { assert Carried(columns, old_[k], now); }
    }
  }

  lemma RepeatedRowsKept(s: Tables, d: Tables)
    requires SameRows(s, d)
    ensures RepeatedRowsRefer(d) <==> RepeatedRowsRefer(s)
  {
    SameOptionsRefer(s.columns, s.containerOptions, d.containerOptions, s.challenges);
    hide RowsOf, SameOptions, HasHost;
    SameRowsAgree(s.portNames, d.portNames, (r: PortName) => r.challenge in s.challenges && HasHost(s.hosts, r.challenge, r.host));
    SameRowsAgree(s.imagePorts, d.imagePorts, (r: ImagePort) => r.image in s.images);
    SameRowsAgree(s.lookupData, d.lookupData, (r: LookupDatum) => r.build in s.builds);
    SameRowsAgree(s.portAssignments, d.portAssignments, (r: PortAssignment) => r.instance in s.instances);
  }

  /** A database that keeps its distinct rows keeps its references, and gets none it lacked. */
  lemma ReferencesKept(s: Tables, d: Tables)
    requires SameRows(s, d)
    ensures RowsRefer(d) <==> RowsRefer(s)
    ensures d.networkOptions == s.networkOptions ==> (References(d) <==> References(s))
  {
    RepeatedRowsKept(s, d);
    hide RowsOf, SameOptions, RepeatedRowsRefer;
  }

  /** The second step adds options only for challenges there are. */
  lemma DefaultsNameChallenges(t: Tables)
    ensures OptionsRefer(MigrateV1ToV2(t)) <==> OptionsRefer(t)
    ensures forall c | c in t.challenges :: c in MigrateV1ToV2(t).networkOptions.value
    ensures t.networkOptions.Some? ==> forall c | c in t.networkOptions.value ::
      c in MigrateV1ToV2(t).networkOptions.value && MigrateV1ToV2(t).networkOptions.value[c] == t.networkOptions.value[c]
    ensures
      var options := MigrateV1ToV2(t).networkOptions.value;
      forall c | c in options && !Had(t.networkOptions, c) :: c in t.challenges && !options[c]
  {
  }

  lemma RowsUntouched(t: Tables)
    ensures RowsRefer(MigrateV1ToV2(t)) <==> RowsRefer(t)
  {
    hide DistinctRowsRefer, RepeatedRowsRefer, MigrateV1ToV2;
    DistinctUntouched(t);
    RepeatedUntouched(t);
  }

  lemma DistinctUntouched(t: Tables)
    ensures DistinctRowsRefer(MigrateV1ToV2(t)) <==> DistinctRowsRefer(t)
  {
    hide WithDefaults;
  }

  lemma RepeatedUntouched(t: Tables)
    ensures RepeatedRowsRefer(MigrateV1ToV2(t)) <==> RepeatedRowsRefer(t)
  {
    hide HasHost, WithDefaults;
  }

  lemma SchemasCompleted(t: Tables)
    ensures
      var schemas := MigrateV1ToV2(t).schemas.value;
      && (forall k | k in t.builds :: t.builds[k].schema in schemas)
      && (t.schemas.Some? ==> forall s | s in t.schemas.value :: s in schemas && schemas[s] == t.schemas.value[s])
      && (forall k | k in t.builds && (t.schemas.None? || t.builds[k].schema !in t.schemas.value) ::
            schemas[t.builds[k].schema] == ("manual-" <= t.builds[k].schema))
      && (forall s | s in schemas :: Had(t.schemas, s) || exists k :: k in t.builds && t.builds[k].schema == s)
  {
  }

  ghost predicate Had(rows: Option<map<string, bool>>, key: string) {
    rows.Some? && key in rows.value
  }

  ghost function OldRows(rows: Option<set<string>>): set<string> {
    match rows
    case Some(old_) => old_
    case None => {}
  }

  // -------------------------------------------------------------- both steps

  /** The second step gives every build its schema record and every challenge its network
      options, keeps those that were there, and leaves all other rows alone.  What it makes
      passes the checks exactly when nothing was amiss that it does not repair. */
  lemma V2Completes(t: Tables)
    ensures
      var d := MigrateV1ToV2(t);
      && d == t.(schemas := d.schemas, networkOptions := d.networkOptions, retiredContainers := d.retiredContainers,
                 retiredNetworks := d.retiredNetworks, columns := d.columns)
      && (CurrentInvariants(d) <==>
            && References(t) && OwnedApart(t)
            && {Seccomp, SeccompTweaks} <= t.columns && UNIQUE_INDEXES + PLAIN_INDEXES <= t.indexes)
      && (t.schemas.Some? ==> forall s | s in t.schemas.value :: s in d.schemas.value && d.schemas.value[s] == t.schemas.value[s])
      && (t.networkOptions.Some? ==> forall c | c in t.networkOptions.value :: c in d.networkOptions.value && d.networkOptions.value[c] == t.networkOptions.value[c])
      && (forall k | k in t.builds && (t.schemas.None? || t.builds[k].schema !in t.schemas.value) ::
            d.schemas.value[t.builds[k].schema] == ("manual-" <= t.builds[k].schema))
      && (forall s | s in d.schemas.value :: Had(t.schemas, s) || exists k :: k in t.builds && t.builds[k].schema == s)
      && (forall c | c in d.networkOptions.value && !Had(t.networkOptions, c) :: c in t.challenges && !d.networkOptions.value[c])
      && d.retiredContainers == Some(OldRows(t.retiredContainers)) && d.retiredNetworks == Some(OldRows(t.retiredNetworks))
      && d.columns == t.columns + {SourceDigest, MetadataDigest}
  {
    DefaultsNameChallenges(t);
    SchemasCompleted(t);
    RowsUntouched(t);
    hide RowsRefer, OptionsRefer, UNIQUE_INDEXES, PLAIN_INDEXES, WithDefaults, Had;
  }

  lemma SecondStepUnrelated(s: Tables, t: Tables)
    ensures SameRows(s, t) ==> SameRows(s, MigrateV1ToV2(t))
    ensures Indexable(t) ==> Indexable(MigrateV1ToV2(t))
  {
    hide UniqueBy, RowsOf, WithDefaults, SameOptions;
  }

  /** A database with nothing amiss but what the migrations repair. */
  predicate Intact(t: Tables) {
    References(t) && OwnedApart(t) && PLAIN_INDEXES <= t.indexes
  }

  /** Both steps together: the result keeps all rows, fits the indexes, and passes the checks
      exactly when the original was intact. */
  lemma BothSteps(t: Tables)
    ensures MigrateV0ToV1(t).Some? ==>
      var d := MigrateV1ToV2(MigrateV0ToV1(t).value);
      SameRows(t, d) && Indexable(d) && (CurrentInvariants(d) <==> Intact(t))
  {
    hide *;
    if MigrateV0ToV1(t).Some? {
      var first := MigrateV0ToV1(t).value;
      V1KeepsRows(t);
      V2Completes(first);
      SecondStepUnrelated(t, first);
      FirstStepUnrelated(t);
      ReferencesKept(t, first);
      IntactAfterFirst(t, first);
    }
  }

  lemma IntactAfterFirst(t: Tables, first: Tables)
    requires References(first) <==> References(t)
    requires first.retiredContainers == t.retiredContainers && first.containers == t.containers
    requires first.indexes == t.indexes + UNIQUE_INDEXES && first.columns == t.columns + {Seccomp, SeccompTweaks}
    ensures Intact(t) <==>
      && References(first) && OwnedApart(first)
      && {Seccomp, SeccompTweaks} <= first.columns && UNIQUE_INDEXES + PLAIN_INDEXES <= first.indexes
  {
    hide References;
    if UNIQUE_INDEXES + PLAIN_INDEXES <= first.indexes {
      forall n | n in PLAIN_INDEXES ensures n in t.indexes { PlainIsNotUnique(n); }
    }
  }

  lemma PlainIsNotUnique(n: string)
    requires n in PLAIN_INDEXES
    ensures n !in UNIQUE_INDEXES
  {
  }
}
