/** Converging to a schema definition (api.go, database_builds.go). */
module Schemas {
  import opened Store
  import opened Instances
  import opened Containers
  import opened Safety
  import opened Promotion
  import opened Generations
  import opened Detection
  import opened Lifecycle
  import opened Recovery
  import opened Placement
  import opened Staffing
  import opened Staging

  const MAX_FLAG_FORMAT := 128

  /** The placeholder is at `i`, and no other directive is anywhere. */
  ghost predicate OnlyPlaceholder(format: string, i: nat) {
    && i + 1 < |format| && format[i + 1] == 's'
    && (forall j | 0 <= j < |format| :: format[j] == '%' <==> j == i)
  }

  ghost predicate ValidFlagFormat(format: string) {
    |format| <= MAX_FLAG_FORMAT && exists i | 0 <= i < |format| :: OnlyPlaceholder(format, i)
  }

  datatype ChallengeSpec = ChallengeSpec(seeds: seq<int>, instanceCount: int)

  datatype Schema = Schema(name: string, flagFormat: string, challenges: map<ChallengeId, ChallengeSpec>)

  /** What validation demands. */
  ghost predicate ValidDefinition(def: Schema) {
    && def.name != "" && !("manual-" <= def.name) && ValidFlagFormat(def.flagFormat)
    && (forall ch | ch in def.challenges :: ValidSpec(def.challenges[ch]))
  }

  /** Counts the directives, and those that are the placeholder. */
  method ValidateFlagFormat(format: string) returns (ok: bool)
    ensures ok <==> ValidFlagFormat(format)
  {
    if |format| > MAX_FLAG_FORMAT {
      return false;
    }
    var placeholders, percents := 0, 0;
    ghost var at := 0;
    for i := 0 to |format|
      invariant percents == 0 ==> placeholders == 0 && forall j | 0 <= j < i :: format[j] != '%'
      invariant percents > 0 ==> at < i && format[at] == '%'
      invariant percents == 1 ==> (forall j | 0 <= j < i && format[j] == '%' :: j == at)
      invariant percents == 1 ==> placeholders == if at + 1 < |format| && format[at + 1] == 's' then 1 else 0
      invariant percents > 1 ==> exists j :: 0 <= j < i && j != at && format[j] == '%'
    {
      if format[i] == '%' {
        percents := percents + 1;
        if i + 1 < |format| && format[i + 1] == 's' {
          placeholders := placeholders + 1;
        }
        at := if percents == 1 then i else at;
      }
    }
    ok := placeholders == 1 && percents == 1;
    if ok {
      assert OnlyPlaceholder(format, at);
    } else {
      forall i: nat | i < |format|
        ensures !OnlyPlaceholder(format, i)
      {
        assert percents > 0 ==> format[at] == '%';
        assert percents == 0 ==> format[i] != '%';
      }
    }
  }

  method ValidateSeeds(seeds: seq<int>) returns (ok: bool)
    ensures ok <==> forall a, b | 0 <= a < b < |seeds| :: seeds[a] != seeds[b]
  {
    var seen: set<int> := {};
    for k := 0 to |seeds|
      invariant forall s :: s in seen <==> s in seeds[..k]
      invariant forall a, b | 0 <= a < b < k :: seeds[a] != seeds[b]
    {
      assert seeds[..k + 1] == seeds[..k] + [seeds[k]];
      if seeds[k] in seen {
        ghost var a :| 0 <= a < k && seeds[..k][a] == seeds[k];
        assert seeds[a] == seeds[k];
        return false;
      }
      seen := seen + {seeds[k]};
    }
    ok := true;
  }

  /** Looks at the name, the flag format and every challenge of a definition. */
  method ValidateSchemaDefinition(def: Schema) returns (ok: bool)
    ensures ok <==> ValidDefinition(def)
  {
    if def.name == "" || IsManual(def.name) {
      return false;
    }
    ok := ValidateFlagFormat(def.flagFormat);
    if !ok {
      return;
    }
    var todo := def.challenges.Keys;
    while todo != {}
      invariant todo <= def.challenges.Keys
      invariant forall ch | ch in def.challenges && ch !in todo :: ValidSpec(def.challenges[ch])
    {
      var ch :| ch in todo;
      todo := todo - {ch};
      if def.challenges[ch].instanceCount < DYNAMIC_INSTANCES {
        return false;
      }
      var distinct := ValidateSeeds(def.challenges[ch].seeds);
      if !distinct {
        return false;
      }
    }
  }

  ghost predicate ValidSpec(spec: ChallengeSpec) {
    spec.instanceCount >= -1 && forall a, b | 0 <= a < b < |spec.seeds| :: spec.seeds[a] != spec.seeds[b]
  }

  predicate Defined(def: Schema, ch: ChallengeId, seed: int) {
    ch in def.challenges && seed in def.challenges[ch].seeds
  }

  /** `x` stands for the row the definition asks for. */
  ghost predicate Planned(db: Db, def: Schema, x: StagedBuild) {
    && Defined(def, x.challenge, x.seed) && x.target == def.challenges[x.challenge].instanceCount
    && HasKey(db, x.id, def.name, def.flagFormat, x.challenge, x.seed)
    && (x.flag != "" ==> db.builds[x.id].output.flag != "")
  }

  ghost predicate AllPlanned(db: Db, def: Schema, state: seq<StagedBuild>) {
    forall x | x in state :: Planned(db, def, x)
  }

  /** Every key of the definition in `done` has its entry. */
  ghost predicate Covers(def: Schema, state: seq<StagedBuild>, done: set<ChallengeId>) {
    forall ch, seed | ch in done && Defined(def, ch, seed) :: exists x :: x in state && x.challenge == ch && x.seed == seed
  }

  /** The groups are the state, by challenge. */
  ghost predicate Grouped(state: seq<StagedBuild>, groups: map<ChallengeId, seq<StagedBuild>>) {
    && (forall x | x in state :: x.challenge in groups && x in groups[x.challenge])
    && (forall ch, x | ch in groups && x in groups[ch] :: x in state && x.challenge == ch)
  }

  // --------------------------------------------------------- the old state

  /** Nothing of `s` is harmed: what was active or finished is as it was, every instance is
      there and runs what it ran, and new rows of the schema are locked. */
  ghost predicate Prior(s: World, d: World, name: string) {
    && d.db.challenges == s.db.challenges && d.db.schemas == s.db.schemas
    && (forall b | b in s.db.builds && !Unfinished(s.db, b, name) :: b in d.db.builds && d.db.builds[b] == s.db.builds[b])
    && (forall b | b in d.db.builds && b !in s.db.builds :: d.db.builds[b].schema == name && d.db.builds[b].instanceCount == LOCKED)
    && (forall b | b in d.db.builds && b in s.db.builds ::
          BuildKey(d.db.builds[b]) == BuildKey(s.db.builds[b]) && d.db.builds[b].instanceCount == s.db.builds[b].instanceCount)
    && Keeps(s.db.instances, d.db.instances)
    && Keeps(s.containers, d.containers)
    && s.running <= d.running && s.nextId <= d.nextId
    && (forall n: TagName | n.build in s.db.builds && !Unfinished(s.db, n.build, name) :: Lookup(d.tags, n) == Lookup(s.tags, n))
    && (forall a: ArtifactName | a.build in s.db.builds && !Unfinished(s.db, a.build, name) :: Lookup(d.artifacts, a) == Lookup(s.artifacts, a))
  }

  lemma PriorStaged(s: World, d: World, name: string)
    requires StagedRows(s, d, name)
    ensures Prior(s, d, name)
  {
  }

  lemma PriorGenerated(s: World, mid: World, d: World, name: string)
    requires StagedRows(s, mid, name) && Generated(mid, d, name)
    ensures Prior(s, d, name)
  {
    forall b | b in s.db.builds && !Unfinished(s.db, b, name) ensures !Unfinished(mid.db, b, name) { }
  }

  lemma PriorPreserves(s: World, mid: World, name: string)
    requires Prior(s, mid, name)
    ensures forall d :: Preserves(mid, d) ==> Prior(s, d, name)
  {
  }

  /** As active builds are finished, every one is untouched while a new definition is prepared. */
  lemma ActiveUntouched(s: World, d: World, name: string, b: BuildId)
    requires Prior(s, d, name) && ActiveComplete(s.db, name)
    requires b in s.db.builds && s.db.builds[b].schema == name && s.db.builds[b].instanceCount != LOCKED
    ensures b in d.db.builds && d.db.builds[b] == s.db.builds[b]
    ensures InstancesOf(s.db, b) <= InstancesOf(d.db, b)
    ensures ActiveComplete(d.db, name)
  {
    forall x | x in d.db.builds && d.db.builds[x].schema == name && d.db.builds[x].instanceCount != LOCKED
      ensures d.db.builds[x].output.flag != ""
    {
      assert x in s.db.builds;
      assert BuildKey(d.db.builds[x]) == BuildKey(s.db.builds[x]);
    }
  }

  // --------------------------------------------------------------- staging

  lemma PlannedOn(s: Db, d: Db, def: Schema, state: seq<StagedBuild>)
    requires AllPlanned(s, def, state) && Keeps(s.builds, d.builds)
    ensures AllPlanned(d, def, state)
  {
  }

  lemma StagedKeeps(s: World, d: World, name: string)
    requires StagedRows(s, d, name)
    ensures Keeps(s.db.builds, d.db.builds)
  {
  }

  lemma PlannedOne(db: Db, def: Schema, state: seq<StagedBuild>, x: StagedBuild)
    requires AllPlanned(db, def, state) && Planned(db, def, x)
    ensures AllPlanned(db, def, state + [x])
  {
    hide Planned;
  }

  lemma StagedIsPlanned(db: Db, def: Schema, x: StagedBuild)
    requires HasKey(db, x.id, def.name, def.flagFormat, x.challenge, x.seed) && Defined(def, x.challenge, x.seed)
    requires x.target == def.challenges[x.challenge].instanceCount && x.flag == db.builds[x.id].output.flag
    ensures Planned(db, def, x)
  {
  }

  /** Opens a row for every seed of one challenge. */
  method StageGroup(m: Manager, def: Schema, ch: ChallengeId) returns (ok: bool, group: seq<StagedBuild>)
    requires Sound(m.world) && ch in def.challenges
    modifies m
    ensures StagedRows(old(m.world), m.world, def.name) && Sound(m.world)
    ensures AllPlanned(m.world.db, def, group) && AsFlagged(m.world.db, group) && (forall x | x in group :: x.challenge == ch)
    ensures ok ==> SeedsStaged(group, def.challenges[ch].seeds, |def.challenges[ch].seeds|)
    ensures m.reliable && ch in old(m.world.db.challenges) ==> ok
    ensures old(m.crashPoints) <= m.crashPoints
    ensures forall d | d in m.crashPoints :: d in old(m.crashPoints) || (Sound(d) && StagedRows(old(m.world), d, def.name))
  {
    hide *;
    ghost var s := m.world;
    StagedRowsRefl(s, def.name);
    group := [];
    NothingPlanned(s.db, def);
    NoneFlagged(s.db);
    var seeds := def.challenges[ch].seeds;
    NoSeedsStaged(seeds);
    for k := 0 to |seeds|
      invariant StagedRows(s, m.world, def.name) && Sound(m.world)
      invariant AllPlanned(m.world.db, def, group) && AsFlagged(m.world.db, group) && (forall x | x in group :: x.challenge == ch)
      invariant SeedsStaged(group, seeds, k)
      invariant old(m.crashPoints) <= m.crashPoints
      invariant forall d | d in m.crashPoints :: d in old(m.crashPoints) || (Sound(d) && StagedRows(s, d, def.name))
    {
      ghost var mid := m.world;
      StagedFrom(s, mid, def.name);
      var staged;
      ok, staged := StageBuild(m, def.name, def.flagFormat, ch, seeds[k], def.challenges[ch].instanceCount);
      StagedKeeps(mid, m.world, def.name);
      PlannedOn(mid.db, m.world.db, def, group);
      FlagsKept(mid.db, m.world.db, group);
      StagedChallenges(s, mid, def.name);
      if !ok {
        return;
      }
      DefinedSeed(def, ch, k);
      StagedIsPlanned(m.world.db, def, staged);
      PlannedOne(m.world.db, def, group, staged);
      FlaggedOne(m.world.db, def, group, staged);
      EarlierSeeds(group, staged, seeds, k);
      group := group + [staged];
    }
    ok := true;
  }

  /** The staged copies have the flags of their rows. */
  ghost predicate AsFlagged(db: Db, state: seq<StagedBuild>) {
    forall x | x in state :: x.id in db.builds && x.flag == db.builds[x.id].output.flag
  }

  lemma NoneFlagged(db: Db)
    ensures AsFlagged(db, [])
  {
  }

  lemma FlagsKept(s: Db, d: Db, state: seq<StagedBuild>)
    requires AsFlagged(s, state) && Keeps(s.builds, d.builds)
    ensures AsFlagged(d, state)
  {
  }

  lemma FlaggedOne(db: Db, def: Schema, state: seq<StagedBuild>, x: StagedBuild)
    requires AsFlagged(db, state) && HasKey(db, x.id, def.name, def.flagFormat, x.challenge, x.seed) && x.flag == db.builds[x.id].output.flag
    ensures AsFlagged(db, state + [x])
  {
  }

  lemma FlaggedTogether(db: Db, a: seq<StagedBuild>, b: seq<StagedBuild>)
    requires AsFlagged(db, a) && AsFlagged(db, b)
    ensures AsFlagged(db, a + b)
  {
  }

  /** The group has an entry for each of the first `k` seeds. */
  ghost predicate SeedsStaged(group: seq<StagedBuild>, seeds: seq<int>, k: nat)
    requires k <= |seeds|
  {
    forall j | 0 <= j < k :: HasSeed(group, seeds[j])
  }

  ghost predicate HasSeed(group: seq<StagedBuild>, seed: int) {
    exists x :: x in group && x.seed == seed
  }

  lemma NoSeedsStaged(seeds: seq<int>)
    ensures SeedsStaged([], seeds, 0)
  {
  }

  lemma EarlierSeeds(group: seq<StagedBuild>, x: StagedBuild, seeds: seq<int>, k: nat)
    requires k < |seeds| && x.seed == seeds[k] && SeedsStaged(group, seeds, k)
    ensures SeedsStaged(group + [x], seeds, k + 1)
  {
    forall j | 0 <= j < k + 1 ensures HasSeed(group + [x], seeds[j]) {
      if j < k {
        assert HasSeed(group, seeds[j]);
        var y :| y in group && y.seed == seeds[j];
        assert y in group + [x];
      } else {
        assert x in group + [x];
      }
    }
  }

  lemma StagedChallenges(s: World, d: World, name: string)
    requires StagedRows(s, d, name)
    ensures d.db.challenges == s.db.challenges
  {
  }

  lemma NothingPlanned(db: Db, def: Schema)
    ensures AllPlanned(db, def, []) && Covers(def, [], {}) && Grouped([], map[])
  {
  }

  lemma DefinedSeed(def: Schema, ch: ChallengeId, k: nat)
    requires ch in def.challenges && k < |def.challenges[ch].seeds|
    ensures Defined(def, ch, def.challenges[ch].seeds[k])
  {
  }

  lemma StagedFrom(s: World, mid: World, name: string)
    requires StagedRows(s, mid, name)
    ensures forall d :: StagedRows(mid, d, name) ==> StagedRows(s, d, name)
  {
    hide StagedRows;
    forall d | StagedRows(mid, d, name) ensures StagedRows(s, d, name) { StagedRowsTrans(s, mid, d, name); }
  }

  lemma GroupJoined(db: Db, def: Schema, state: seq<StagedBuild>, groups: map<ChallengeId, seq<StagedBuild>>, done: set<ChallengeId>, ch: ChallengeId, group: seq<StagedBuild>)
    requires AllPlanned(db, def, state) && AllPlanned(db, def, group) && Covers(def, state, done) && Grouped(state, groups)
    requires ch in def.challenges && ch !in groups && forall x | x in group :: x.challenge == ch
    requires SeedsStaged(group, def.challenges[ch].seeds, |def.challenges[ch].seeds|)
    ensures AllPlanned(db, def, state + group) && Covers(def, state + group, done + {ch}) && Grouped(state + group, groups[ch := group])
  {
    hide Planned;
    forall c, seed | c in done + {ch} && Defined(def, c, seed)
      ensures exists x :: x in state + group && x.challenge == c && x.seed == seed
    {
      if c in done {
        var x :| x in state && x.challenge == c && x.seed == seed;
        assert x in state + group;
      } else {
        var j :| 0 <= j < |def.challenges[ch].seeds| && def.challenges[ch].seeds[j] == seed;
        assert HasSeed(group, def.challenges[ch].seeds[j]);
        var x :| x in group && x.seed == def.challenges[ch].seeds[j];
        assert x in state + group;
      }
    }
  }

  /** Opens a row for every key of the definition. */
  method StageSchema(m: Manager, def: Schema) returns (ok: bool, state: seq<StagedBuild>, groups: map<ChallengeId, seq<StagedBuild>>)
    requires Sound(m.world)
    modifies m
    ensures StagedRows(old(m.world), m.world, def.name) && Sound(m.world)
    ensures ok ==> AllPlanned(m.world.db, def, state) && Covers(def, state, def.challenges.Keys) && Grouped(state, groups)
    ensures ok ==> AsFlagged(m.world.db, state) && groups.Keys == def.challenges.Keys
    ensures m.reliable && def.challenges.Keys <= old(m.world.db.challenges.Keys) ==> ok
    ensures old(m.crashPoints) <= m.crashPoints
    ensures forall d | d in m.crashPoints :: d in old(m.crashPoints) || (Sound(d) && StagedRows(old(m.world), d, def.name))
  {
    hide *;
    ghost var s := m.world;
    StagedRowsRefl(s, def.name);
    state, groups := [], map[];
    NothingPlanned(s.db, def);
    NoneFlagged(s.db);
    var todo := def.challenges.Keys;
    assert def.challenges.Keys - todo == {};
    while todo != {}
      invariant todo <= def.challenges.Keys && groups.Keys == def.challenges.Keys - todo
      invariant StagedRows(s, m.world, def.name) && Sound(m.world)
      invariant AllPlanned(m.world.db, def, state) && Covers(def, state, def.challenges.Keys - todo) && Grouped(state, groups)
      invariant AsFlagged(m.world.db, state)
      invariant old(m.crashPoints) <= m.crashPoints
      invariant forall d | d in m.crashPoints :: d in old(m.crashPoints) || (Sound(d) && StagedRows(s, d, def.name))
    {
      var ch :| ch in todo;
      ghost var mid := m.world;
      StagedFrom(s, mid, def.name);
      StagedChallenges(s, mid, def.name);
      var group;
      ok, group := StageGroup(m, def, ch);
      if !ok {
        return;
      }
      StagedKeeps(mid, m.world, def.name);
      PlannedOn(mid.db, m.world.db, def, state);
      FlagsKept(mid.db, m.world.db, state);
      FlaggedTogether(m.world.db, state, group);
      GroupJoined(m.world.db, def, state, groups, def.challenges.Keys - todo, ch, group);
      assert def.challenges.Keys - (todo - {ch}) == (def.challenges.Keys - todo) + {ch};
      state, groups, todo := state + group, groups[ch := group], todo - {ch};
    }
    assert def.challenges.Keys - {} == def.challenges.Keys;
    ok := true;
  }

  // -------------------------------------------------------------- building

  lemma PlannedKept(s: World, d: World, def: Schema, state: seq<StagedBuild>)
    requires AllPlanned(s.db, def, state) && Generated(s, d, def.name) && d.db.builds.Keys == s.db.builds.Keys
    ensures AllPlanned(d.db, def, state)
  {
    forall x | x in state
      ensures Planned(d.db, def, x)
    {
      assert Planned(s.db, def, x);
    }
  }

  lemma PlannedOpens(db: Db, def: Schema, state: seq<StagedBuild>, groups: map<ChallengeId, seq<StagedBuild>>, ch: ChallengeId)
    requires AllPlanned(db, def, state) && Grouped(state, groups) && ch in groups
    ensures AllOpened(db, groups[ch], def.name) && forall x | x in groups[ch] :: x.challenge == ch
  {
    forall x | x in groups[ch]
      ensures Staging.Opened(db, x, def.name)
    {
      assert Planned(db, def, x);
    }
  }

  ghost predicate GroupsFinished(db: Db, groups: map<ChallengeId, seq<StagedBuild>>, done: set<ChallengeId>) {
    forall ch | ch in done && ch in groups :: Finished(db, groups[ch])
  }

  lemma FinishedGroups(s: World, d: World, def: Schema, groups: map<ChallengeId, seq<StagedBuild>>, done: set<ChallengeId>, ch: ChallengeId)
    requires GroupsFinished(s.db, groups, done) && Generated(s, d, def.name) && d.db.builds.Keys == s.db.builds.Keys
    requires ch in groups && Finished(d.db, groups[ch])
    ensures GroupsFinished(d.db, groups, done + {ch})
  {
    forall c, x | c in done && c in groups && x in groups[c]
      ensures x.id in d.db.builds && d.db.builds[x.id].output.flag != ""
    {
      assert s.db.builds[x.id].output.flag != "";
    }
  }

  lemma AllGroupsFinished(db: Db, state: seq<StagedBuild>, groups: map<ChallengeId, seq<StagedBuild>>)
    requires Grouped(state, groups) && GroupsFinished(db, groups, groups.Keys)
    ensures Finished(db, state)
  {
  }

  /** Builds every group; nothing that was finished is touched. */
  method GenerateSchema(m: Manager, def: Schema, ghost state: seq<StagedBuild>, groups: map<ChallengeId, seq<StagedBuild>>,
                        inventory: map<ChallengeId, Challenge>, inventoryErrors: bool)
    returns (ok: bool)
    requires Sound(m.world) && AllPlanned(m.world.db, def, state) && Grouped(state, groups)
    modifies m
    ensures Generated(old(m.world), m.world, def.name) && Sound(m.world)
    ensures ok ==> AllPlanned(m.world.db, def, state) && Finished(m.world.db, state)
    ensures (forall x | x in state :: x.flag != "") ==> ok && m.world == old(m.world)
    ensures m.reliable && m.fortunate && !inventoryErrors && (forall ch | ch in groups :: Buildable(old(m.world.db), inventory, ch)) ==> ok
    ensures old(m.crashPoints) <= m.crashPoints
    ensures forall d | d in m.crashPoints :: d in old(m.crashPoints) || (Sound(d) && Generated(old(m.world), d, def.name))
  {
    hide *;
    ghost var s := m.world;
    GeneratedRefl(s, def.name);
    NoGroupsFinished(s.db, groups);
    var todo := groups.Keys;
    assert groups.Keys - todo == {};
    while todo != {}
      invariant todo <= groups.Keys
      invariant Generated(s, m.world, def.name) && Sound(m.world)
      invariant AllPlanned(m.world.db, def, state) && GroupsFinished(m.world.db, groups, groups.Keys - todo)
      invariant (forall x | x in state :: x.flag != "") ==> m.world == s
      invariant old(m.crashPoints) <= m.crashPoints
      invariant forall d | d in m.crashPoints :: d in old(m.crashPoints) || (Sound(d) && Generated(s, d, def.name))
    {
      var ch :| ch in todo;
      ghost var mid := m.world;
      PlannedOpens(mid.db, def, state, groups, ch);
      GeneratedFrom(s, mid, def.name);
      GroupFlags(state, groups, ch);
      BuildableStays(s, mid, def.name, inventory, ch);
      ok := GenerateBuilds(m, ch, groups[ch], inventory, inventoryErrors, def.name);
      if !ok {
        return;
      }
      PlannedKept(mid, m.world, def, state);
      FinishedGroups(mid, m.world, def, groups, groups.Keys - todo, ch);
      assert groups.Keys - (todo - {ch}) == (groups.Keys - todo) + {ch};
      todo := todo - {ch};
    }
    assert groups.Keys - {} == groups.Keys;
    AllGroupsFinished(m.world.db, state, groups);
    ok := true;
  }

  lemma GroupFlags(state: seq<StagedBuild>, groups: map<ChallengeId, seq<StagedBuild>>, ch: ChallengeId)
    requires Grouped(state, groups) && ch in groups
    ensures (forall x | x in state :: x.flag != "") ==> forall x | x in groups[ch] :: x.flag != ""
  {
  }

  lemma BuildableStays(s: World, d: World, name: string, inventory: map<ChallengeId, Challenge>, ch: ChallengeId)
    requires Generated(s, d, name)
    ensures Buildable(s.db, inventory, ch) ==> Buildable(d.db, inventory, ch)
  {
    hide Current;
  }

  lemma NoGroupsFinished(db: Db, groups: map<ChallengeId, seq<StagedBuild>>)
    ensures GroupsFinished(db, groups, {})
  {
  }

  // -------------------------------------------------------------- scale up

  /** Instances made since `s`, whose containers are newer than anything of `s`. */
  ghost predicate Created(s: World, d: World, created: seq<InstanceId>) {
    && (forall i | i in created ::
          && i !in s.db.instances && Healthy(d, i)
          && (forall c | c in d.db.instances[i].runtime.containers :: c >= s.nextId))
    && (forall a, b | 0 <= a < b < |created| :: created[a] != created[b])
  }

  /** Every instance is one of `s` or one of `created`. */
  ghost predicate OnlyCreated(s: World, d: World, created: seq<InstanceId>) {
    forall i | i in d.db.instances :: i in s.db.instances || i in created
  }

  lemma CreatedKept(s: World, mid: World, d: World, created: seq<InstanceId>)
    requires Created(s, mid, created) && Preserves(mid, d)
    ensures Created(s, d, created)
    ensures OnlyCreated(s, mid, created) && d.db.instances == mid.db.instances ==> OnlyCreated(s, d, created)
  {
    hide Preserves, Healthy;
    forall i | i in created
      ensures i in d.db.instances && Healthy(d, i) && (forall c | c in d.db.instances[i].runtime.containers :: c >= s.nextId)
    {
      HealthyThere(mid, i);
      HealthyStays(mid, d, i);
      HealthyThere(d, i);
    }
  }

  lemma HealthyThere(w: World, i: InstanceId)
    requires Healthy(w, i)
    ensures i in w.db.instances
  {
  }

  lemma CreatedOne(s: World, mid: World, d: World, created: seq<InstanceId>, i: InstanceId, b: BuildId, rt: Runtime)
    requires Created(s, mid, created) && Spawned(mid, d, i, b, rt) && s.nextId <= mid.nextId && Keeps(s.db.instances, mid.db.instances)
    ensures Created(s, d, created + [i])
    ensures OnlyCreated(s, mid, created) ==> OnlyCreated(s, d, created + [i])
    ensures |InstancesOf(d.db, b)| == |InstancesOf(mid.db, b)| + 1
  {
    hide RuntimeImages, Spawned, Healthy;
    forall j | j in created ensures j in mid.db.instances { HealthyThere(mid, j); }
    SpawnedCreated(mid, d, i, b, rt);
    SpawnedIsHealthy(mid, d, b, i, rt);
    ReplacementIsHealthy(mid, d, i);
    CreatedKept(s, mid, d, created);
    OneMore(mid, d, b, i);
  }

  lemma SpawnedCreated(mid: World, d: World, i: InstanceId, b: BuildId, rt: Runtime)
    requires Spawned(mid, d, i, b, rt)
    ensures i !in mid.db.instances && i in d.db.instances && d.db.instances[i] == Instance(b, 0, rt)
    ensures d.db.instances.Keys == mid.db.instances.Keys + {i}
    ensures forall c | c in rt.containers :: c >= mid.nextId
    ensures Preserves(mid, d)
  {
    hide *;
    SpawnedParts(mid, d, i, b, rt);
    RowAdded(mid.db.instances, i, Instance(b, 0, rt));
  }

  lemma SpawnedParts(mid: World, d: World, i: InstanceId, b: BuildId, rt: Runtime)
    requires Spawned(mid, d, i, b, rt)
    ensures i !in mid.db.instances && d.db.instances == mid.db.instances[i := Instance(b, 0, rt)] && Preserves(mid, d)
    ensures forall c | c in rt.containers :: c >= mid.nextId
  {
    hide RuntimeImages, Preserves, Runs;
  }

  lemma RowAdded(rows: map<InstanceId, Instance>, i: InstanceId, row: Instance)
    ensures rows[i := row].Keys == rows.Keys + {i} && rows[i := row][i] == row
  {
  }

  lemma ReplacementIsHealthy(mid: World, d: World, i: InstanceId)
    requires Replacement(mid, d, i)
    ensures Healthy(d, i)
  {
  }

  /** Fixed builds of the definition have at least the instances they ask for. */
  ghost predicate Staffed(db: Db, state: seq<StagedBuild>, k: nat)
    requires k <= |state|
  {
    forall j | 0 <= j < k && state[j].target != DYNAMIC_INSTANCES :: |InstancesOf(db, state[j].id)| >= state[j].target
  }

  lemma StaffedKept(s: World, d: World, state: seq<StagedBuild>, k: nat)
    requires k <= |state| && Staffed(s.db, state, k) && Preserves(s, d)
    ensures Staffed(d.db, state, k)
  {
    forall j | 0 <= j < k && state[j].target != DYNAMIC_INSTANCES
      ensures |InstancesOf(d.db, state[j].id)| >= state[j].target
    {
      MoreInstances(s, d, state[j].id);
    }
  }

  lemma StaffedOne(db: Db, state: seq<StagedBuild>, k: nat)
    requires k < |state| && Staffed(db, state, k)
    requires state[k].target != DYNAMIC_INSTANCES ==> |InstancesOf(db, state[k].id)| >= state[k].target
    ensures Staffed(db, state, k + 1)
  {
  }

  /** Where scaling up stands: `s` is intact and `created` is all that was added. */
  ghost predicate Scaling(s: World, d: World, created: seq<InstanceId>, clean: bool) {
    && Sound(d) && Preserves(s, d) && Created(s, d, created) && (clean ==> OnlyCreated(s, d, created))
  }

  lemma ScalingFirst(s: World)
    requires Sound(s)
    ensures Scaling(s, s, [], true)
  {
    hide Sound;
  }

  lemma ScalingOne(s: World, mid: World, d: World, created: seq<InstanceId>, i: InstanceId, b: BuildId, rt: Runtime)
    requires Scaling(s, mid, created, true) && Sound(d) && Preserves(mid, d) && Spawned(mid, d, i, b, rt)
    ensures Scaling(s, d, created + [i], true)
    ensures |InstancesOf(d.db, b)| == |InstancesOf(mid.db, b)| + 1
  {
    hide Sound, Spawned, Created, OnlyCreated;
    PreservesTrans(s, mid, d);
    CreatedOne(s, mid, d, created, i, b, rt);
  }

  lemma ScalingFailed(s: World, mid: World, d: World, created: seq<InstanceId>, clean: bool)
    requires Scaling(s, mid, created, true) && Sound(d) && Preserves(mid, d)
    requires clean ==> d.db.instances == mid.db.instances
    ensures Scaling(s, d, created, clean)
  {
    hide Sound;
    PreservesTrans(s, mid, d);
    CreatedKept(s, mid, d, created);
  }

  lemma ScalingFrom(s: World, mid: World, created: seq<InstanceId>)
    requires Scaling(s, mid, created, true)
    ensures Sound(mid) && Preserves(s, mid)
    ensures forall d :: Preserves(mid, d) ==> Preserves(s, d)
    ensures mid.db.builds == s.db.builds
  {
    forall d | Preserves(mid, d) ensures Preserves(s, d) { PreservesTrans(s, mid, d); }
  }

  lemma PlannedRow(db: Db, def: Schema, state: seq<StagedBuild>, k: nat)
    requires AllPlanned(db, def, state) && k < |state|
    ensures state[k].id in db.builds && db.builds[state[k].id].schema == def.name
  {
    assert Planned(db, def, state[k]);
  }

  /** Starts the instances the definition asks for and does not have yet. */
  method ScaleUp(m: Manager, ghost def: Schema, state: seq<StagedBuild>) returns (ok: bool, created: seq<InstanceId>, clean: bool, ghost refused: bool)
    requires m.portLow == 0 || m.portLow <= m.portHigh
    requires Sound(m.world) && AllPlanned(m.world.db, def, state)
    modifies m
    ensures Scaling(old(m.world), m.world, created, clean)
    ensures ok ==> clean && Staffed(m.world.db, state, |state|)
    ensures m.reliable ==> clean
    ensures m.reliable && !refused ==> ok
    ensures Staffed(old(m.world.db), state, |state|) ==> !refused
    ensures m.reliable && m.fortunate && CanStaff(old(m.world), m.portLow, m.portHigh, PlannedTargetsOf(old(m.world.db), def, state)) ==> !refused
    ensures old(m.crashPoints) <= m.crashPoints
    ensures forall d | d in m.crashPoints :: d in old(m.crashPoints) || (Sound(d) && Preserves(old(m.world), d))
  {
    hide *;
    ghost var s := m.world;
    ghost var targets := PlannedTargetsOf(s.db, def, state);
    ghost var able := m.reliable && m.fortunate && CanStaff(s, m.portLow, m.portHigh, targets);
    refused := false;
    ScalingFirst(s);
    created, clean := [], true;
    NoneStaffed(s.db, state);
    for k := 0 to |state|
      invariant Scaling(s, m.world, created, true) && clean && Staffed(m.world.db, state, k)
      invariant !refused && (able ==> CanStaff(m.world, m.portLow, m.portHigh, targets))
      invariant old(m.crashPoints) <= m.crashPoints
      invariant forall d | d in m.crashPoints :: d in old(m.crashPoints) || (Sound(d) && Preserves(s, d))
    {
      ghost var start := m.world;
      StaffedDynamic(m.world.db, state, k);
      PlannedRow(s.db, def, state, k);
      PlannedTarget(s.db, def, state, k);
      StaffedAt(s.db, state, k);
      if state[k].target == DYNAMIC_INSTANCES {
        continue;
      }
      var read := m.Query();
      if !read {
        return false, created, true, refused;
      }
      ScalingMore(s, start, created, state[k].id);
      var count := |InstancesOf(m.world.db, state[k].id)|;
      while count < state[k].target
        invariant Scaling(s, m.world, created, true) && Staffed(m.world.db, state, k)
        invariant count == |InstancesOf(m.world.db, state[k].id)| && count >= |InstancesOf(s.db, state[k].id)|
        invariant !refused && (able ==> CanStaff(m.world, m.portLow, m.portHigh, targets))
        invariant old(m.crashPoints) <= m.crashPoints
        invariant forall d | d in m.crashPoints :: d in old(m.crashPoints) || (Sound(d) && Preserves(s, d))
        decreases state[k].target - count
      {
        ghost var mid := m.world;
        ScalingFrom(s, mid, created);
        ShortOne(mid.db, targets, state[k].id, state[k].target);
        if able { CanStart(mid, m.portLow, m.portHigh, targets, state[k].id); }
        SoundIssuesIds(mid);
        var r;
        ghost var rt;
        r, clean, rt := NewInstance(m, state[k].id, m.world.db.builds[state[k].id]);
        StaffedKept(mid, m.world, state, k);
        if r.None? {
          ScalingFailed(s, mid, m.world, created, clean);
          return false, created, clean, true;
        }
        if able { StaffedByOne(mid, m.world, m.portLow, m.portHigh, targets, r.value, state[k].id, rt); }
        ScalingOne(s, mid, m.world, created, r.value, state[k].id, rt);
        created, count, clean := created + [r.value], count + 1, true;
      }
      StaffedOne(m.world.db, state, k);
    }
    ok := true;
  }

  /** What the definition asks for, by build. */
  ghost function PlannedTargetsOf(db: Db, def: Schema, state: seq<StagedBuild>): map<BuildId, int> {
    map k | 0 <= k < |state| && state[k].id in db.builds && db.builds[state[k].id].challenge in def.challenges ::
      state[k].id := def.challenges[db.builds[state[k].id].challenge].instanceCount
  }

  lemma PlannedTarget(db: Db, def: Schema, state: seq<StagedBuild>, k: nat)
    requires AllPlanned(db, def, state) && k < |state|
    ensures state[k].id in PlannedTargetsOf(db, def, state) && PlannedTargetsOf(db, def, state)[state[k].id] == state[k].target
  {
    assert Planned(db, def, state[k]);
  }

  lemma StaffedAt(db: Db, state: seq<StagedBuild>, k: nat)
    requires k < |state|
    ensures Staffed(db, state, |state|) && state[k].target != DYNAMIC_INSTANCES ==> |InstancesOf(db, state[k].id)| >= state[k].target
  {
  }

  lemma ScalingMore(s: World, d: World, created: seq<InstanceId>, b: BuildId)
    requires Scaling(s, d, created, true)
    ensures |InstancesOf(d.db, b)| >= |InstancesOf(s.db, b)|
  {
    hide Sound, Created, OnlyCreated;
    MoreInstances(s, d, b);
  }

  lemma ShortOne(db: Db, targets: map<BuildId, int>, b: BuildId, target: int)
    requires b in targets && targets[b] == target
    ensures |InstancesOf(db, b)| < target ==> Short(db, targets, b)
  {
  }

  lemma SoundIssuesIds(s: World)
    requires Sound(s)
    ensures IdsIssued(s)
  {
  }

  lemma NoneStaffed(db: Db, state: seq<StagedBuild>)
    ensures Staffed(db, state, 0)
  {
  }

  lemma StaffedDynamic(db: Db, state: seq<StagedBuild>, k: nat)
    requires k < |state| && Staffed(db, state, k)
    ensures state[k].target == DYNAMIC_INSTANCES ==> Staffed(db, state, k + 1)
  {
  }

  // --------------------------------------------------------------- pruning

  ghost predicate OwnedBy(db: Db, victims: set<InstanceId>, c: ContainerId) {
    exists i :: i in victims && i in db.instances && c in db.instances[i].runtime.containers
  }

  /** Instances among `victims` were stopped, wholly or in part, and builds among `dropped`
      were removed; nothing else changed. */
  ghost predicate Pruned(s: World, d: World, victims: set<InstanceId>, dropped: set<BuildId>) {
    && d.db == s.db.(instances := d.db.instances, builds := d.db.builds, retired := d.db.retired)
    && d.nextId == s.nextId
    && Keeps(d.db.builds, s.db.builds) && (forall b | b in s.db.builds && b !in dropped :: b in d.db.builds)
    && (forall i | i in d.db.instances ::
          && i in s.db.instances && d.db.instances[i].build == s.db.instances[i].build
          && d.db.instances[i].runtime.containers <= s.db.instances[i].runtime.containers)
    && (forall i | i in s.db.instances && i !in victims :: i in d.db.instances && d.db.instances[i] == s.db.instances[i])
    && Keeps(d.containers, s.containers)
    && (forall c | c in s.containers && c !in d.containers :: OwnedBy(s.db, victims, c))
    && d.running <= s.running && (forall c | c in s.running && c !in d.running :: OwnedBy(s.db, victims, c))
    && (forall n: TagName | n.build !in dropped :: Lookup(d.tags, n) == Lookup(s.tags, n))
    && (forall a: ArtifactName | a.build !in dropped :: Lookup(d.artifacts, a) == Lookup(s.artifacts, a))
    && Keeps(d.tags, s.tags)
  }

  /** Taking away costs no build its generation. */
  lemma PrunedConsistent(s: World, d: World, victims: set<InstanceId>, dropped: set<BuildId>)
    requires Pruned(s, d, victims, dropped) && Consistent(s)
    ensures Consistent(d)
  {
    hide Consistent, OwnedBy;
    LessIsConsistent(s, d);
  }

  lemma PrunedRefl(s: World, victims: set<InstanceId>, dropped: set<BuildId>)
    ensures Pruned(s, s, victims, dropped)
  {
  }

  lemma OwnedEarlier(s: World, mid: World, victims: set<InstanceId>, dropped: set<BuildId>, c: ContainerId)
    requires Pruned(s, mid, victims, dropped) && OwnedBy(mid.db, victims, c)
    ensures OwnedBy(s.db, victims, c)
  {
    var i :| i in victims && i in mid.db.instances && c in mid.db.instances[i].runtime.containers;
    assert c in s.db.instances[i].runtime.containers;
  }

  lemma PrunedTrans(s: World, mid: World, d: World, victims: set<InstanceId>, dropped: set<BuildId>)
    requires Pruned(s, mid, victims, dropped) && Pruned(mid, d, victims, dropped)
    ensures Pruned(s, d, victims, dropped)
  {
    hide OwnedBy;
    forall c | OwnedBy(mid.db, victims, c) ensures OwnedBy(s.db, victims, c) { OwnedEarlier(s, mid, victims, dropped, c); }
  }

  lemma PrunedMore(s: World, d: World, victims: set<InstanceId>, dropped: set<BuildId>, more: set<InstanceId>, moreDropped: set<BuildId>)
    requires Pruned(s, d, victims, dropped) && victims <= more && dropped <= moreDropped
    ensures Pruned(s, d, more, moreDropped)
  {
  }

  lemma PrunedByUnwinding(s: World, d: World, i: InstanceId)
    requires i in s.db.instances && Unwound(s, d, i, s.db.instances[i].runtime.containers)
    ensures Pruned(s, d, {i}, {})
  {
    forall c | c in s.db.instances[i].runtime.containers ensures OwnedBy(s.db, {i}, c) { }
  }

  lemma PrunedByStop(s: World, d: World, i: InstanceId)
    requires InstanceGone(s, d, i)
    ensures Pruned(s, d, {i}, {})
  {
    forall c | c in s.db.instances[i].runtime.containers ensures OwnedBy(s.db, {i}, c) { }
  }

  lemma PrunedStops(s: World, i: InstanceId)
    requires Sound(s) && i in s.db.instances
    ensures forall d :: Unwound(s, d, i, s.db.instances[i].runtime.containers) ==> Sound(d) && Pruned(s, d, {i}, {})
    ensures forall d :: InstanceGone(s, d, i) ==> Sound(d) && Pruned(s, d, {i}, {}) && i !in d.db.instances
  {
    hide Sound, Unwound, Pruned;
    var ids := s.db.instances[i].runtime.containers;
    forall d | Unwound(s, d, i, ids) ensures Sound(d) && Pruned(s, d, {i}, {}) { SoundUnwound(s, d, i, ids); PrunedByUnwinding(s, d, i); }
    forall d | InstanceGone(s, d, i) ensures Sound(d) && Pruned(s, d, {i}, {}) { SoundGone(s, d, i); PrunedByStop(s, d, i); }
  }

  /** What is left of the instances is as it was, and keeps running. */
  ghost predicate RestIntact(s: World, d: World) {
    && (forall b | b in d.db.builds :: b in s.db.builds && d.db.builds[b].output == s.db.builds[b].output)
    && (forall i | i in d.db.instances :: i in s.db.instances && d.db.instances[i] == s.db.instances[i])
    && (forall i, c | i in d.db.instances && c in d.db.instances[i].runtime.containers && c in s.running :: c in d.running)
  }

  lemma RestIntactTrans(s: World, mid: World, d: World)
    requires RestIntact(s, mid) && RestIntact(mid, d)
    ensures RestIntact(s, d)
  {
  }

  lemma RestIntactRefl(s: World)
    ensures RestIntact(s, s)
  {
  }

  lemma StopLeavesRest(s: World, i: InstanceId)
    requires Sound(s)
    ensures forall d :: InstanceGone(s, d, i) ==> RestIntact(s, d)
  {
    hide FitsRuntime, BuildsDistinct, OwnedOrRetired, Tracked;
    ConstraintsGiveUniqueContainers(s.db);
    forall d | InstanceGone(s, d, i) ensures RestIntact(s, d) {
      forall j, c | j in d.db.instances && c in d.db.instances[j].runtime.containers && c in s.running
        ensures c in d.running
      {
        assert c !in s.db.instances[i].runtime.containers;
      }
    }
  }

  lemma HealthyRest(s: World, d: World, i: InstanceId)
    requires RestIntact(s, d) && Healthy(s, i) && i in d.db.instances && d.db.instances[i].build in d.db.builds
    ensures Healthy(d, i)
  {
  }

  /** Stopping one more victim. */
  lemma PrunedOn(s: World, mid: World, victims: set<InstanceId>, dropped: set<BuildId>, i: InstanceId)
    requires Pruned(s, mid, victims, dropped) && i in victims
    ensures forall d :: Pruned(mid, d, {i}, {}) ==> Pruned(s, d, victims, dropped)
  {
    hide Pruned;
    forall d | Pruned(mid, d, {i}, {}) ensures Pruned(s, d, victims, dropped) {
      PrunedMore(mid, d, {i}, {}, victims, dropped);
      PrunedTrans(s, mid, d, victims, dropped);
    }
  }

  // ------------------------------------------------ failing before activation

  function IdsOf(ids: seq<InstanceId>): set<InstanceId> {
    set i | i in ids
  }

  lemma StillThere(s: World, mid: World, created: seq<InstanceId>, k: nat)
    requires k <= |created| && Pruned(s, mid, IdsOf(created[k..]), {})
    requires forall i | i in created :: i in s.db.instances
    requires forall a, b | 0 <= a < b < |created| :: created[a] != created[b]
    ensures k > 0 ==> created[k - 1] in mid.db.instances && created[k - 1] in IdsOf(created[k - 1..])
    ensures k > 0 ==> IdsOf(created[k..]) <= IdsOf(created[k - 1..])
    ensures k > 0 ==> IdsOf(created[k - 1..]) == IdsOf(created[k..]) + {created[k - 1]}
  {
    if k > 0 {
      assert created[k - 1..] == [created[k - 1]] + created[k..];
    }
  }

  /** Stops the instances made for a definition that is given up, the latest first. */
  method StopCreated(m: Manager, created: seq<InstanceId>) returns (ok: bool)
    requires Sound(m.world)
    requires forall i | i in created :: i in m.world.db.instances
    requires forall a, b | 0 <= a < b < |created| :: created[a] != created[b]
    modifies m
    ensures Sound(m.world) && Pruned(old(m.world), m.world, IdsOf(created), {})
    ensures ok ==> forall i | i in created :: i !in m.world.db.instances
    ensures m.reliable ==> ok
    ensures old(m.crashPoints) <= m.crashPoints
    ensures forall d | d in m.crashPoints :: d in old(m.crashPoints) || (Sound(d) && Pruned(old(m.world), d, IdsOf(created), {}))
  {
    hide *;
    ghost var s := m.world;
    PrunedRefl(s, IdsOf(created[|created|..]), {});
    PrunedRefl(s, IdsOf(created), {});
    ok := true;
    for k := |created| downto 0
      invariant Sound(m.world) && Pruned(s, m.world, IdsOf(created[k..]), {})
      invariant ok ==> forall j | k <= j < |created| :: created[j] !in m.world.db.instances
      invariant m.reliable ==> ok
      invariant old(m.crashPoints) <= m.crashPoints
      invariant forall d | d in m.crashPoints :: d in old(m.crashPoints) || (Sound(d) && Pruned(s, d, IdsOf(created), {}))
    {
      ghost var mid := m.world;
      var i := created[k];
      StillThere(s, mid, created, k + 1);
      PrunedMore(s, mid, IdsOf(created[k + 1..]), {}, IdsOf(created[k..]), {});
      TailIds(created, k);
      PrunedMore(s, mid, IdsOf(created[k..]), {}, IdsOf(created), {});
      var read := m.Query();
      if !read {
        ok := false;
        continue;
      }
      SoundIdsAndConstraints(mid);
      PrunedStops(mid, i);
      PrunedOn(s, mid, IdsOf(created[k..]), {}, i);
      PrunedOn(s, mid, IdsOf(created), {}, i);
      var stopped := StopInstance(m, i);
      PrunedGone(mid, m.world, {i}, {});
      ok := ok && stopped;
    }
    assert created[0..] == created;
  }

  lemma TailIds(created: seq<InstanceId>, k: nat)
    requires k < |created|
    ensures IdsOf(created[k..]) <= IdsOf(created) && created[k] in IdsOf(created)
  {
  }

  lemma SoundIdsAndConstraints(s: World)
    requires Sound(s)
    ensures IdsIssued(s) && Constraints(s.db)
  {
  }

  lemma PrunedGone(s: World, d: World, victims: set<InstanceId>, dropped: set<BuildId>)
    requires Pruned(s, d, victims, dropped)
    ensures forall i :: i !in s.db.instances ==> i !in d.db.instances
    ensures d.db.instances.Keys <= s.db.instances.Keys
  {
  }

  /** Taking back what was created leaves the old state as it was. */
  lemma PriorPruned(s: World, start: World, d: World, created: seq<InstanceId>, name: string)
    requires IdsIssued(s) && Prior(s, start, name) && Created(s, start, created) && Pruned(start, d, IdsOf(created), {})
    ensures Prior(s, d, name)
  {
    forall c: ContainerId | OwnedBy(start.db, IdsOf(created), c)
      ensures c >= s.nextId
    {
      var i :| i in IdsOf(created) && i in start.db.instances && c in start.db.instances[i].runtime.containers;
      assert i in created;
    }
    PriorPrunedRows(s, start, d, created, name);
  }

  lemma PriorPrunedRows(s: World, start: World, d: World, created: seq<InstanceId>, name: string)
    requires IdsIssued(s) && Prior(s, start, name) && Created(s, start, created) && Pruned(start, d, IdsOf(created), {})
    requires forall c: ContainerId | OwnedBy(start.db, IdsOf(created), c) :: c >= s.nextId
    ensures Prior(s, d, name)
  {
    hide OwnedBy;
    forall i | i in s.db.instances ensures i !in IdsOf(created) { }
  }

  /** With every created instance stopped, the instances are exactly those of `s`. */
  lemma BackToOriginal(s: World, start: World, d: World, created: seq<InstanceId>)
    requires Keeps(s.db.instances, start.db.instances) && OnlyCreated(s, start, created)
    requires forall i | i in created :: i !in s.db.instances
    requires Pruned(start, d, IdsOf(created), {}) && forall i | i in created :: i !in d.db.instances
    ensures d.db.instances == s.db.instances
  {
    hide OwnedBy;
    assert d.db.instances.Keys == s.db.instances.Keys;
  }

  // ------------------------------------------------------------ activation

  /** The definition takes effect: builds in `targets` get their targets, all others of the
      schema are locked. */
  function Activated(db: Db, name: string, targets: map<BuildId, int>): Db {
    db.(builds := map b | b in db.builds ::
          if db.builds[b].schema != name then db.builds[b]
          else db.builds[b].(instanceCount := if b in targets then targets[b] else LOCKED))
  }

  lemma ActivatedConstraints(db: Db, name: string, targets: map<BuildId, int>)
    ensures Constraints(db) ==> Constraints(Activated(db, name, targets))
  {
    hide UniquePorts, PortsInRange, UniqueContainers, Recordable;
    var d := Activated(db, name, targets);
    assert forall b | b in db.builds :: BuildKey(d.builds[b]) == BuildKey(db.builds[b]);
  }

  lemma SoundActivated(s: World, name: string, targets: map<BuildId, int>)
    requires Sound(s)
    ensures Sound(s.(db := Activated(s.db, name, targets)))
  {
    hide Constraints, FitsRuntime, DistinctImages;
    var d := s.(db := Activated(s.db, name, targets));
    ActivatedConstraints(s.db, name, targets);
    forall c | Tracked(s.db, c) ensures Tracked(d.db, c) {
      if Owned(s.db, c) { assert Owned(d.db, c); }
    }
  }

  lemma ActivatedIs(db: Db, name: string, targets: map<BuildId, int>, builds: map<BuildId, Build>)
    requires builds.Keys == db.builds.Keys
    requires forall b | b in db.builds && db.builds[b].schema != name :: builds[b] == db.builds[b]
    requires forall b | b in db.builds && db.builds[b].schema == name ::
      builds[b] == db.builds[b].(instanceCount := if b in targets then targets[b] else LOCKED)
    ensures Activated(db, name, targets) == db.(builds := builds)
  {
    assert Activated(db, name, targets).builds == builds;
  }

  /** One transaction: lock everything, then set each target; a missing build undoes it all. */
  method ActivateSchemaBuilds(m: Manager, name: string, targets: map<BuildId, int>) returns (ok: bool)
    requires Sound(m.world)
    modifies m
    ensures ok ==> m.world == old(m.world).(db := Activated(old(m.world.db), name, targets))
    ensures ok ==> forall b | b in targets :: b in old(m.world.db.builds) && old(m.world.db.builds[b].schema) == name
    ensures !ok ==> m.world == old(m.world)
    ensures m.reliable && (forall b | b in targets :: b in old(m.world.db.builds) && old(m.world.db.builds[b].schema) == name) ==> ok
    ensures Sound(m.world)
    ensures m.crashPoints <= old(m.crashPoints) + {m.world} && old(m.crashPoints) <= m.crashPoints
  {
    hide Sound, Constraints, Activated;
    var db := m.world.db;
    var builds := map b | b in db.builds ::
      if db.builds[b].schema == name then db.builds[b].(instanceCount := LOCKED) else db.builds[b];
    var todo := targets.Keys;
    while todo != {}
      invariant todo <= targets.Keys && builds.Keys == db.builds.Keys
      invariant forall b | b in targets.Keys - todo :: b in db.builds && db.builds[b].schema == name
      invariant forall b | b in db.builds && db.builds[b].schema != name :: builds[b] == db.builds[b]
      invariant forall b | b in db.builds && db.builds[b].schema == name ::
        builds[b] == db.builds[b].(instanceCount := if b in targets && b !in todo then targets[b] else LOCKED)
    {
      var b :| b in todo;
      todo := todo - {b};
      if b !in builds || builds[b].schema != name {
        return false;
      }
      builds := builds[b := builds[b].(instanceCount := targets[b])];
    }
    ActivatedIs(db, name, targets, builds);
    SoundIdsAndConstraints(m.world);
    ActivatedConstraints(db, name, targets);
    SoundActivated(m.world, name, targets);
    ok := m.Commit(db.(builds := builds));
  }

  method TargetsOf(state: seq<StagedBuild>, ghost db: Db, ghost def: Schema) returns (targets: map<BuildId, int>)
    requires AllPlanned(db, def, state)
    ensures forall b | b in targets :: exists x :: x in state && x.id == b && x.target == targets[b]
    ensures forall x | x in state :: x.id in targets && targets[x.id] == x.target
  {
    targets := map[];
    for k := 0 to |state|
      invariant forall b | b in targets :: exists x :: x in state && x.id == b && x.target == targets[b]
      invariant forall j | 0 <= j < k :: state[j].id in targets && targets[state[j].id] == state[j].target
    {
      forall j | 0 <= j < k && state[j].id == state[k].id ensures state[j].target == state[k].target {
        assert Planned(db, def, state[j]) && Planned(db, def, state[k]);
      }
      targets := targets[state[k].id := state[k].target];
    }
  }

  // -------------------------------------------------------------- clean-up

  function LockedBuilds(db: Db, name: string): (ids: set<BuildId>)
    ensures forall b :: b in ids <==> b in db.builds && db.builds[b].schema == name && db.builds[b].instanceCount == LOCKED
  {
    set b | b in db.builds && db.builds[b].schema == name && db.builds[b].instanceCount == LOCKED
  }

  lemma RowRemovedConstraints(db: Db, b: BuildId)
    requires Constraints(db) && forall i | i in db.instances :: db.instances[i].build != b
    ensures Constraints(db.(builds := db.builds - {b}))
  {
    hide UniquePorts, PortsInRange, UniqueContainers, Recordable;
  }

  lemma PrunedRow(s: World, b: BuildId)
    requires Sound(s) && forall i | i in s.db.instances :: s.db.instances[i].build != b
    ensures
      var d := s.(db := s.db.(builds := s.db.builds - {b}));
      Pruned(s, d, {}, {b}) && Constraints(d.db) && Sound(d)
  {
    hide Constraints, FitsRuntime, DistinctImages;
    RowRemovedConstraints(s.db, b);
    var d := s.(db := s.db.(builds := s.db.builds - {b}));
    forall c | Tracked(s.db, c) ensures Tracked(d.db, c) {
      if Owned(s.db, c) { assert Owned(d.db, c); }
    }
  }

  lemma PrunedNames(s: World, b: BuildId)
    requires Sound(s)
    ensures forall d :: TagsOnlyOf(s, d, b) ==> Pruned(s, d, {}, {b}) && Sound(d)
  {
    hide Sound;
    forall d | TagsOnlyOf(s, d, b) ensures Pruned(s, d, {}, {b}) && Sound(d) { SoundNames(s, d); }
  }

  ghost predicate TagsOnlyOf(s: World, d: World, b: BuildId) {
    && d == s.(tags := d.tags, artifacts := d.artifacts)
    && (forall n: TagName | n.build != b :: Lookup(d.tags, n) == Lookup(s.tags, n))
    && (forall a: ArtifactName | a.build != b :: Lookup(d.artifacts, a) == Lookup(s.artifacts, a))
    && Keeps(d.tags, s.tags)
  }

  lemma TagsOnlyOfStep(s: World, mid: World, b: BuildId, n: TagName, a: ArtifactName)
    requires TagsOnlyOf(s, mid, b) && n.build == b && a.build == b
    ensures TagsOnlyOf(s, mid.(tags := mid.tags - {n}), b) && TagsOnlyOf(s, mid.(artifacts := mid.artifacts - {a}), b)
  {
  }

  lemma TagsOnlyOfRefl(s: World, b: BuildId)
    ensures TagsOnlyOf(s, s, b)
  {
  }

  lemma TagsOnlyOfTables(s: World, d: World, b: BuildId)
    requires TagsOnlyOf(s, d, b)
    ensures d.db == s.db
  {
  }

  /** The images of the build have lost their names, and its archive is gone. */
  ghost predicate NamesGone(w: World, b: BuildId, row: Build) {
    && (row.output.hasArtifacts ==> Canonical(b) !in w.artifacts)
    && forall k | 0 <= k < |row.output.images| :: TagName(row.challenge, b, row.output.images[k].host, "") !in w.tags
  }

  lemma AllNamesGone(w: World, b: BuildId, row: Build)
    requires row.output.hasArtifacts ==> Canonical(b) !in w.artifacts
    requires forall k | 0 <= k < |row.output.images| :: TagName(row.challenge, b, row.output.images[k].host, "") !in w.tags
    ensures forall d: World | d.tags == w.tags && d.artifacts == w.artifacts :: NamesGone(d, b, row)
  {
  }

  /** Removing another build brings no name back. */
  lemma NamesStayGone(s: World, mid: World, d: World, b: BuildId, done: set<BuildId>)
    requires Pruned(mid, d, {}, {b}) && b !in done && forall x | x in done :: x in s.db.builds && NamesGone(mid, x, s.db.builds[x])
    ensures forall x | x in done :: NamesGone(d, x, s.db.builds[x])
  {
    forall x | x in done
      ensures NamesGone(d, x, s.db.builds[x])
    {
      assert NamesGone(mid, x, s.db.builds[x]);
      assert Lookup(d.artifacts, Canonical(x)) == Lookup(mid.artifacts, Canonical(x));
    }
  }

  lemma PrunedRows(s: World, d: World, victims: set<InstanceId>, dropped: set<BuildId>, b: BuildId)
    requires Pruned(s, d, victims, dropped) && b in d.db.builds
    ensures b in s.db.builds && d.db.builds[b] == s.db.builds[b]
  {
  }

  /** Removes a build that has no instances, with its images and artifacts. */
  method DestroyImages(m: Manager, b: BuildId) returns (ok: bool)
    requires Sound(m.world) && b in m.world.db.builds
    modifies m
    ensures Sound(m.world) && Pruned(old(m.world), m.world, {}, {b})
    ensures ok ==> b !in m.world.db.builds && NamesGone(m.world, b, old(m.world.db.builds[b]))
    ensures RestIntact(old(m.world), m.world)
    ensures m.reliable && InstancesOf(old(m.world.db), b) == {} ==> ok
    ensures old(m.crashPoints) <= m.crashPoints
    ensures forall d | d in m.crashPoints :: d in old(m.crashPoints) || (Sound(d) && Pruned(old(m.world), d, {}, {b}))
  {
    hide *;
    ghost var s := m.world;
    PrunedRefl(s, {}, {b});
    PrunedNames(s, b);
    TagsOnlyOfRefl(s, b);
    NamesLeaveRest(s, b);
    var read := m.Query();
    if !read || InstancesOf(m.world.db, b) != {} {
      return false;
    }
    NoInstances(s, b);
    var row := m.world.db.builds[b];
    if row.output.hasArtifacts {
      TagsOnlyOfStep(s, s, b, TagName("", b, "", ""), Canonical(b));
      var r := m.FileRemove(Canonical(b));
      if r == Failed {
        return false;
      }
    }
    for k := 0 to |row.output.images|
      invariant TagsOnlyOf(s, m.world, b)
      invariant row.output.hasArtifacts ==> Canonical(b) !in m.world.artifacts
      invariant forall j | 0 <= j < k :: TagName(row.challenge, b, row.output.images[j].host, "") !in m.world.tags
      invariant old(m.crashPoints) <= m.crashPoints
      invariant forall d | d in m.crashPoints :: d in old(m.crashPoints) || (Sound(d) && Pruned(s, d, {}, {b}))
    {
      TagsOnlyOfStep(s, m.world, b, TagName(row.challenge, b, row.output.images[k].host, ""), Canonical(b));
      var r := m.ImageRemove(TagName(row.challenge, b, row.output.images[k].host, ""));
      if r == Failed {
        return false;
      }
    }
    ghost var mid := m.world;
    AllNamesGone(mid, b, row);
    TagsOnlyOfTables(s, mid, b);
    PrunedRow(mid, b);
    ok := m.Commit(m.world.db.(builds := m.world.db.builds - {b}));
    PrunedRefl(mid, {}, {b});
    PrunedTrans(s, mid, m.world, {}, {b});
    assert ok ==> b !in m.world.db.builds;
    RowLeavesRest(s, mid, b);
  }

  lemma NamesLeaveRest(s: World, b: BuildId)
    ensures forall d :: TagsOnlyOf(s, d, b) ==> RestIntact(s, d)
  {
  }

  lemma RowLeavesRest(s: World, mid: World, b: BuildId)
    requires TagsOnlyOf(s, mid, b)
    ensures RestIntact(s, mid) && RestIntact(s, mid.(db := mid.db.(builds := mid.db.builds - {b})))
  {
  }

  lemma NoInstances(s: World, b: BuildId)
    requires InstancesOf(s.db, b) == {}
    ensures forall i | i in s.db.instances :: s.db.instances[i].build != b
  {
    assert forall i | i in s.db.instances && s.db.instances[i].build == b :: i in InstancesOf(s.db, b);
  }

  /** Only locked builds of the schema, and their instances, were affected. */
  ghost predicate CleanedUp(s: World, d: World, name: string) {
    Pruned(s, d, InstancesOfBuilds(s.db, LockedBuilds(s.db, name)), LockedBuilds(s.db, name))
  }

  lemma CleanedIsPruned(s: World, name: string)
    ensures forall d :: CleanedUp(s, d, name) <==> Pruned(s, d, InstancesOfBuilds(s.db, LockedBuilds(s.db, name)), LockedBuilds(s.db, name))
  {
  }

  /** Stops the instances of locked builds, then removes those builds; the first error ends it. */
  method CleanupSchemaResources(m: Manager, name: string) returns (ok: bool)
    requires Sound(m.world)
    modifies m
    ensures Sound(m.world)
    ensures CleanedUp(old(m.world), m.world, name)
    ensures ok ==> forall b | b in LockedBuilds(old(m.world.db), name) ::
      b !in m.world.db.builds && b in old(m.world.db.builds) && NamesGone(m.world, b, old(m.world.db.builds[b]))
    ensures ok ==> RestIntact(old(m.world), m.world)
    ensures m.reliable ==> ok
    ensures old(m.crashPoints) <= m.crashPoints
    ensures forall d | d in m.crashPoints :: d in old(m.crashPoints) || (Sound(d) && CleanedUp(old(m.world), d, name))
  {
    hide *;
    ghost var s := m.world;
    ghost var locked := LockedBuilds(s.db, name);
    ghost var victims := InstancesOfBuilds(s.db, locked);
    PrunedRefl(s, victims, locked);
    RestIntactRefl(s);
    CleanedIsPruned(s, name);
    var read := m.Query();
    if !read {
      return false;
    }
    var todo := InstancesOfBuilds(m.world.db, LockedBuilds(m.world.db, name));
    VictimsExist(s.db, locked);
    while todo != {}
      invariant todo <= victims && Sound(m.world) && Pruned(s, m.world, victims, locked) && RestIntact(s, m.world)
      invariant forall i | i in victims && i !in todo :: i !in m.world.db.instances
      invariant m.world.db.builds == s.db.builds && todo <= m.world.db.instances.Keys
      invariant old(m.crashPoints) <= m.crashPoints
      invariant forall d | d in m.crashPoints :: d in old(m.crashPoints) || (Sound(d) && Pruned(s, d, victims, locked))
    {
      var i :| i in todo;
      todo := todo - {i};
      ghost var mid := m.world;
      read := m.Query();
      if !read {
        return false;
      }
      SoundIdsAndConstraints(mid);
      PrunedStops(mid, i);
      PrunedOn(s, mid, victims, locked, i);
      StopLeavesRest(mid, i);
      ok := StopInstance(m, i);
      if !ok {
        return;
      }
      GoneKeepsBuilds(mid, m.world, i);
      RestIntactTrans(s, mid, m.world);
      PrunedGone(mid, m.world, {i}, {});
    }
    read := m.Query();
    if !read {
      return false;
    }
    LockedStill(s, m.world, name, victims);
    var builds := LockedBuilds(m.world.db, name);
    while builds != {}
      invariant builds <= locked && Sound(m.world) && Pruned(s, m.world, victims, locked) && RestIntact(s, m.world)
      invariant forall i | i in victims :: i !in m.world.db.instances
      invariant locked <= s.db.builds.Keys && builds <= m.world.db.builds.Keys
      invariant forall b | b in locked - builds :: b !in m.world.db.builds && NamesGone(m.world, b, s.db.builds[b])
      invariant old(m.crashPoints) <= m.crashPoints
      invariant forall d | d in m.crashPoints :: d in old(m.crashPoints) || (Sound(d) && Pruned(s, d, victims, locked))
    {
      var b :| b in builds;
      builds := builds - {b};
      ghost var mid := m.world;
      PrunedRows(s, mid, victims, locked, b);
      NobodyLeft(s, mid, locked, b);
      PrunedDrop(s, mid, victims, locked, b);
      ok := DestroyImages(m, b);
      RestIntactTrans(s, mid, m.world);
      PrunedGone(mid, m.world, {}, {b});
      BuildsGone(mid, m.world, {}, {b});
      if !ok {
        return;
      }
      NamesStayGone(s, mid, m.world, b, locked - (builds + {b}));
      assert locked - builds == locked - (builds + {b}) + {b};
    }
    assert locked - {} == locked;
    ok := true;
  }

  lemma GoneKeepsBuilds(s: World, d: World, i: InstanceId)
    requires InstanceGone(s, d, i)
    ensures d.db.builds == s.db.builds && d.db.instances.Keys == s.db.instances.Keys - {i}
  {
  }

  lemma VictimsExist(db: Db, locked: set<BuildId>)
    ensures forall i | i in InstancesOfBuilds(db, locked) :: i in db.instances
  {
  }

  lemma LockedStill(s: World, mid: World, name: string, victims: set<InstanceId>)
    requires Pruned(s, mid, victims, LockedBuilds(s.db, name))
    requires mid.db.builds == s.db.builds
    ensures LockedBuilds(mid.db, name) == LockedBuilds(s.db, name) <= s.db.builds.Keys
  {
    hide OwnedBy;
  }

  lemma NobodyLeft(s: World, mid: World, locked: set<BuildId>, b: BuildId)
    requires Pruned(s, mid, InstancesOfBuilds(s.db, locked), locked) && b in locked
    requires forall i | i in InstancesOfBuilds(s.db, locked) :: i !in mid.db.instances
    ensures InstancesOf(mid.db, b) == {}
  {
    hide OwnedBy;
    assert forall i | i in mid.db.instances && mid.db.instances[i].build == b :: i in InstancesOfBuilds(s.db, locked);
  }

  lemma PrunedDrop(s: World, mid: World, victims: set<InstanceId>, dropped: set<BuildId>, b: BuildId)
    requires Pruned(s, mid, victims, dropped) && b in dropped
    ensures forall d :: Pruned(mid, d, {}, {b}) ==> Pruned(s, d, victims, dropped)
  {
    hide Pruned;
    forall d | Pruned(mid, d, {}, {b}) ensures Pruned(s, d, victims, dropped) {
      PrunedMore(mid, d, {}, {b}, victims, dropped);
      PrunedTrans(s, mid, d, victims, dropped);
    }
  }

  lemma BuildsGone(s: World, d: World, victims: set<InstanceId>, dropped: set<BuildId>)
    requires Pruned(s, d, victims, dropped)
    ensures forall b | b !in s.db.builds :: b !in d.db.builds
    ensures s.db.builds.Keys - dropped <= d.db.builds.Keys
  {
  }

  // ------------------------------------------------------------ scale down

  /** The instances of a build, in some order. */
  method ListInstances(ids: set<InstanceId>) returns (list: seq<InstanceId>)
    ensures IdsOf(list) == ids && |list| == |ids|
    ensures forall a, b | 0 <= a < b < |list| :: list[a] != list[b]
  {
    list := [];
    var rest := ids;
    while rest != {}
      invariant rest <= ids && |list| == |ids| - |rest|
      invariant forall i :: i in list <==> i in ids && i !in rest
      invariant forall a, b | 0 <= a < b < |list| :: list[a] != list[b]
    {
      var i :| i in rest;
      rest, list := rest - {i}, list + [i];
    }
  }

  lemma {:induction false} DistinctIds(list: seq<InstanceId>)
    requires forall a, b | 0 <= a < b < |list| :: list[a] != list[b]
    ensures |IdsOf(list)| == |list|
  {
    if list != [] {
      var rest := list[..|list| - 1];
      DistinctIds(rest);
      assert list == rest + [list[|list| - 1]];
      assert IdsOf(list) == IdsOf(rest) + {list[|list| - 1]};
    }
  }

  /** The instances of `b` are those of the list, but for the stopped tail. */
  ghost predicate Shortened(db: Db, b: BuildId, list: seq<InstanceId>, target: nat, k: nat, ok: bool)
    requires target <= k <= |list|
  {
    && IdsOf(list[..target]) <= InstancesOf(db, b) <= IdsOf(list)
    && (ok ==> InstancesOf(db, b) <= IdsOf(list[..target]) + IdsOf(list[k..]))
  }

  lemma ShortenedFirst(db: Db, b: BuildId, list: seq<InstanceId>, target: nat)
    requires target <= |list| && InstancesOf(db, b) == IdsOf(list)
    ensures Shortened(db, b, list, target, target, true)
  {
    assert list == list[..target] + list[target..];
  }

  lemma ShortenedOne(s: World, d: World, b: BuildId, list: seq<InstanceId>, target: nat, k: nat, ok: bool, stopped: bool)
    requires target <= k < |list| && Shortened(s.db, b, list, target, k, ok)
    requires forall x, y | 0 <= x < y < |list| :: list[x] != list[y]
    requires Pruned(s, d, {list[k]}, {}) && (stopped ==> list[k] !in d.db.instances)
    ensures Shortened(d.db, b, list, target, k + 1, ok && stopped)
    ensures forall x | x != b && (list[k] in s.db.instances ==> s.db.instances[list[k]].build == b) :: InstancesOf(d.db, x) == InstancesOf(s.db, x)
  {
    hide OwnedBy;
    assert list[k..] == [list[k]] + list[k + 1..];
    forall i | i in IdsOf(list[..target]) ensures i in InstancesOf(d.db, b) {
      assert i in InstancesOf(s.db, b) && i != list[k];
    }
  }

  lemma ShortenedDone(db: Db, b: BuildId, list: seq<InstanceId>, target: nat, ok: bool)
    requires target <= |list| && Shortened(db, b, list, target, |list|, ok)
    requires forall x, y | 0 <= x < y < |list| :: list[x] != list[y]
    ensures |InstancesOf(db, b)| >= target && (ok ==> |InstancesOf(db, b)| == target)
  {
    assert list[|list|..] == [];
    DistinctIds(list[..target]);
    var kept, now := IdsOf(list[..target]), InstancesOf(db, b);
    assert now == kept + (now - kept);
    assert |now| == |kept| + |now - kept|;
    if ok { assert now == kept; }
  }

  /** Fixed builds among the first `k` have exactly the instances they ask for. */
  ghost predicate Exact(db: Db, state: seq<StagedBuild>, k: nat)
    requires k <= |state|
  {
    forall j | 0 <= j < k && state[j].target != DYNAMIC_INSTANCES :: |InstancesOf(db, state[j].id)| == state[j].target
  }

  function BuildsIn(state: seq<StagedBuild>): set<BuildId> {
    set x | x in state :: x.id
  }

  /** Stops the instances of one build beyond its target. */
  method Shrink(m: Manager, b: BuildId, target: nat) returns (ok: bool)
    requires Sound(m.world) && |InstancesOf(m.world.db, b)| >= target
    modifies m
    ensures Sound(m.world) && Pruned(old(m.world), m.world, InstancesOf(old(m.world.db), b), {})
    ensures |InstancesOf(m.world.db, b)| >= target && (ok ==> |InstancesOf(m.world.db, b)| == target)
    ensures forall x | x != b :: InstancesOf(m.world.db, x) == InstancesOf(old(m.world.db), x)
    ensures ok ==> RestIntact(old(m.world), m.world)
    ensures m.reliable ==> ok
    ensures old(m.crashPoints) <= m.crashPoints
    ensures forall d | d in m.crashPoints :: d in old(m.crashPoints) || (Sound(d) && Pruned(old(m.world), d, InstancesOf(old(m.world.db), b), {}))
  {
    hide *;
    ghost var s := m.world;
    ghost var victims := InstancesOf(s.db, b);
    PrunedRefl(s, victims, {});
    var read := m.Query();
    if !read {
      return false;
    }
    var list := ListInstances(InstancesOf(m.world.db, b));
    ShortenedFirst(s.db, b, list, target);
    RestIntactRefl(s);
    ok := true;
    for k := target to |list|
      invariant Sound(m.world) && Pruned(s, m.world, victims, {})
      invariant Shortened(m.world.db, b, list, target, k, ok) && (ok ==> RestIntact(s, m.world))
      invariant forall x | x != b :: InstancesOf(m.world.db, x) == InstancesOf(s.db, x)
      invariant m.reliable ==> ok
      invariant old(m.crashPoints) <= m.crashPoints
      invariant forall d | d in m.crashPoints :: d in old(m.crashPoints) || (Sound(d) && Pruned(s, d, victims, {}))
    {
      ghost var mid := m.world;
      InList(s.db, mid.db, b, list, k);
      PrunedRefl(mid, {list[k]}, {});
      SameBuild(s, mid, victims, {}, list[k], b);
      ShortenedOne(mid, mid, b, list, target, k, ok, list[k] !in mid.db.instances);
      read := m.Query();
      if !read {
        ShortenedOne(mid, mid, b, list, target, k, ok, false);
        ok := false;
        continue;
      }
      if list[k] !in m.world.db.instances {
        continue;
      }
      SoundIdsAndConstraints(mid);
      PrunedStops(mid, list[k]);
      PrunedOn(s, mid, victims, {}, list[k]);
      StopLeavesRest(mid, list[k]);
      var stopped := StopInstance(m, list[k]);
      if ok && stopped { RestIntactTrans(s, mid, m.world); }
      ShortenedOne(mid, m.world, b, list, target, k, ok, stopped);
      ok := ok && stopped;
    }
    ShortenedDone(m.world.db, b, list, target, ok);
  }

  lemma InList(db: Db, now: Db, b: BuildId, list: seq<InstanceId>, k: nat)
    requires k < |list| && IdsOf(list) == InstancesOf(db, b)
    ensures list[k] in InstancesOf(db, b) && list[k] in db.instances && db.instances[list[k]].build == b
  {
    assert list[k] in IdsOf(list);
  }

  lemma SameBuild(s: World, mid: World, victims: set<InstanceId>, dropped: set<BuildId>, i: InstanceId, b: BuildId)
    requires Pruned(s, mid, victims, dropped) && i in s.db.instances && s.db.instances[i].build == b
    ensures i in mid.db.instances ==> mid.db.instances[i].build == b
  {
  }

  /** Stops what the definition no longer asks for. */
  method ScaleDown(m: Manager, state: seq<StagedBuild>) returns (ok: bool)
    requires Sound(m.world) && Staffed(m.world.db, state, |state|)
    requires forall x | x in state :: x.target >= DYNAMIC_INSTANCES
    requires forall j, k | 0 <= j < |state| && 0 <= k < |state| && state[j].id == state[k].id :: state[j].target == state[k].target
    modifies m
    ensures Sound(m.world) && Pruned(old(m.world), m.world, InstancesOfBuilds(old(m.world.db), BuildsIn(state)), {})
    ensures ok ==> Exact(m.world.db, state, |state|) && RestIntact(old(m.world), m.world)
    ensures m.reliable ==> ok
    ensures old(m.crashPoints) <= m.crashPoints
    ensures forall d | d in m.crashPoints :: d in old(m.crashPoints) || (Sound(d) && Pruned(old(m.world), d, InstancesOfBuilds(old(m.world.db), BuildsIn(state)), {}))
  {
    hide *;
    ghost var s := m.world;
    ghost var victims := InstancesOfBuilds(s.db, BuildsIn(state));
    PrunedRefl(s, victims, {});
    NothingExact(s.db, state);
    RestIntactRefl(s);
    ok := true;
    for k := 0 to |state|
      invariant Sound(m.world) && Pruned(s, m.world, victims, {})
      invariant Staffed(m.world.db, state, |state|) && (ok ==> Exact(m.world.db, state, k) && RestIntact(s, m.world))
      invariant m.reliable ==> ok
      invariant old(m.crashPoints) <= m.crashPoints
      invariant forall d | d in m.crashPoints :: d in old(m.crashPoints) || (Sound(d) && Pruned(s, d, victims, {}))
    {
      ghost var mid := m.world;
      TargetOf(mid.db, state, k, ok);
      if state[k].target == DYNAMIC_INSTANCES {
        continue;
      }
      VictimsOf(s, mid, state, k);
      PrunedWith(s, mid, victims, InstancesOf(mid.db, state[k].id));
      var shrunk := Shrink(m, state[k].id, state[k].target);
      StaffedStill(mid.db, m.world.db, state, k, ok, shrunk);
      if ok && shrunk { RestIntactTrans(s, mid, m.world); }
      ok := ok && shrunk;
    }
  }

  lemma NothingExact(db: Db, state: seq<StagedBuild>)
    ensures Exact(db, state, 0)
  {
  }

  lemma TargetOf(db: Db, state: seq<StagedBuild>, k: nat, ok: bool)
    requires k < |state| && Staffed(db, state, |state|) && (ok ==> Exact(db, state, k))
    requires forall x | x in state :: x.target >= DYNAMIC_INSTANCES
    ensures state[k].target == DYNAMIC_INSTANCES ==> (ok ==> Exact(db, state, k + 1))
    ensures state[k].target != DYNAMIC_INSTANCES ==> state[k].target >= 0 && |InstancesOf(db, state[k].id)| >= state[k].target
  {
    assert state[k] in state;
  }

  lemma VictimsOf(s: World, mid: World, state: seq<StagedBuild>, k: nat)
    requires k < |state| && Pruned(s, mid, InstancesOfBuilds(s.db, BuildsIn(state)), {})
    ensures InstancesOf(mid.db, state[k].id) <= InstancesOfBuilds(s.db, BuildsIn(state))
  {
    assert state[k].id in BuildsIn(state) by { assert state[k] in state; }
  }

  lemma PrunedWith(s: World, mid: World, victims: set<InstanceId>, some: set<InstanceId>)
    requires Pruned(s, mid, victims, {}) && some <= victims
    ensures forall d :: Pruned(mid, d, some, {}) ==> Pruned(s, d, victims, {})
  {
    hide Pruned;
    forall d | Pruned(mid, d, some, {}) ensures Pruned(s, d, victims, {}) {
      PrunedMore(mid, d, some, {}, victims, {});
      PrunedTrans(s, mid, d, victims, {});
    }
  }

  lemma StaffedStill(s: Db, d: Db, state: seq<StagedBuild>, k: nat, ok: bool, shrunk: bool)
    requires k < |state| && state[k].target != DYNAMIC_INSTANCES
    requires Staffed(s, state, |state|) && (ok ==> Exact(s, state, k))
    requires |InstancesOf(d, state[k].id)| >= state[k].target && (shrunk ==> |InstancesOf(d, state[k].id)| == state[k].target)
    requires forall x | x != state[k].id :: InstancesOf(d, x) == InstancesOf(s, x)
    requires forall j | 0 <= j < |state| && state[j].id == state[k].id :: state[j].target == state[k].target
    ensures Staffed(d, state, |state|) && (ok && shrunk ==> Exact(d, state, k + 1))
  {
    forall j | 0 <= j < |state| && state[j].target != DYNAMIC_INSTANCES
      ensures |InstancesOf(d, state[j].id)| >= state[j].target
    {
      if state[j].id != state[k].id { assert InstancesOf(d, state[j].id) == InstancesOf(s, state[j].id); }
    }
    forall j | 0 <= j < k && state[j].target != DYNAMIC_INSTANCES && ok && shrunk
      ensures |InstancesOf(d, state[j].id)| == state[j].target
    {
      if state[j].id != state[k].id { assert InstancesOf(d, state[j].id) == InstancesOf(s, state[j].id); }
    }
  }

  // ------------------------------------------------------------ convergence

  /** `clean` is false when an instance made for the abandoned definition could not be removed. */
  datatype ConvergeResult = UnknownSchema | NotActivated(clean: bool) | ActivatedAs(ok: bool)

  /** The row is what the definition asks for, and it is finished. */
  ghost predicate AsDefined(db: Db, b: BuildId, def: Schema) {
    && b in db.builds && db.builds[b].schema == def.name && db.builds[b].format == def.flagFormat
    && Defined(def, db.builds[b].challenge, db.builds[b].seed)
    && db.builds[b].instanceCount == def.challenges[db.builds[b].challenge].instanceCount
    && db.builds[b].output.flag != ""
  }

  ghost predicate IsBuildOf(db: Db, b: BuildId, def: Schema, ch: ChallengeId, seed: int) {
    AsDefined(db, b, def) && db.builds[b].challenge == ch && db.builds[b].seed == seed
  }

  /** The definition is in effect: whatever is active is as defined, and everything defined is
      active. */
  ghost predicate Durable(db: Db, def: Schema) {
    && (forall b | b in db.builds && db.builds[b].schema == def.name && db.builds[b].instanceCount != LOCKED :: AsDefined(db, b, def))
    && (forall ch, seed | Defined(def, ch, seed) :: exists b :: IsBuildOf(db, b, def, ch, seed))
  }

  /** Nothing but the definition is left, and every fixed build has exactly its instances. */
  ghost predicate Converged(db: Db, def: Schema) {
    && Durable(db, def)
    && (forall b | b in db.builds && db.builds[b].schema == def.name :: AsDefined(db, b, def))
    && (forall b | b in db.builds && db.builds[b].schema == def.name && db.builds[b].instanceCount >= 0 ::
          |InstancesOf(db, b)| == db.builds[b].instanceCount)
  }

  /** Builds of other schemas, with their images, artifacts and instances, are as they were, and
      what ran keeps running. */
  ghost predicate OthersKept(s: World, d: World, name: string) {
    && d.db.challenges == s.db.challenges
    && (forall b | b in s.db.builds && s.db.builds[b].schema != name :: b in d.db.builds && d.db.builds[b] == s.db.builds[b])
    && (forall b | b in d.db.builds && d.db.builds[b].schema != name :: b in s.db.builds && s.db.builds[b].schema != name)
    && (forall n: TagName | n.build in s.db.builds && s.db.builds[n.build].schema != name :: Lookup(d.tags, n) == Lookup(s.tags, n))
    && (forall a: ArtifactName | a.build in s.db.builds && s.db.builds[a.build].schema != name :: Lookup(d.artifacts, a) == Lookup(s.artifacts, a))
    && (forall i | i in s.db.instances && s.db.instances[i].build in s.db.builds && s.db.builds[s.db.instances[i].build].schema != name ::
          && i in d.db.instances && d.db.instances[i] == s.db.instances[i]
          && (forall c | c in s.db.instances[i].runtime.containers && c in s.running :: c in d.running))
  }

  lemma PriorKeepsOthers(s: World, d: World, name: string)
    requires Prior(s, d, name)
    ensures OthersKept(s, d, name)
  {
    forall b | b in d.db.builds && d.db.builds[b].schema != name
      ensures b in s.db.builds && s.db.builds[b].schema != name
    {
      assert BuildKey(d.db.builds[b]) == BuildKey(s.db.builds[b]);
    }
  }

  lemma ActivationIsDurable(s: World, d: World, def: Schema, state: seq<StagedBuild>, targets: map<BuildId, int>)
    requires AllPlanned(s.db, def, state) && Finished(s.db, state) && Covers(def, state, def.challenges.Keys)
    requires d == s.(db := Activated(s.db, def.name, targets))
    requires forall b | b in targets :: exists x :: x in state && x.id == b && x.target == targets[b]
    requires forall x | x in state :: x.id in targets && targets[x.id] == x.target
    ensures Durable(d.db, def) && ActiveComplete(d.db, def.name)
    ensures forall b | b in d.db.builds && d.db.builds[b].schema == def.name && d.db.builds[b].instanceCount != LOCKED ::
      exists x :: x in state && x.id == b && x.target == d.db.builds[b].instanceCount
  {
    hide AsDefined, Planned, Defined, IsBuildOf;
    forall x | x in state
      ensures AsDefined(d.db, x.id, def) && IsBuildOf(d.db, x.id, def, x.challenge, x.seed)
    {
      PlannedIsDefined(s.db, def, x, targets);
    }
    forall b | b in d.db.builds && d.db.builds[b].schema == def.name && d.db.builds[b].instanceCount != LOCKED
      ensures AsDefined(d.db, b, def)
      ensures exists x :: x in state && x.id == b && x.target == d.db.builds[b].instanceCount
    {
      assert b in targets;
    }
    forall ch, seed | Defined(def, ch, seed)
      ensures exists b :: IsBuildOf(d.db, b, def, ch, seed)
    {
      DefinedIn(def, ch, seed);
      var x :| x in state && x.challenge == ch && x.seed == seed;
      assert IsBuildOf(d.db, x.id, def, ch, seed);
    }
    DurableIsComplete(d.db, def);
  }

  lemma PlannedIsDefined(db: Db, def: Schema, x: StagedBuild, targets: map<BuildId, int>)
    requires Planned(db, def, x) && x.id in targets && targets[x.id] == x.target && db.builds[x.id].output.flag != ""
    ensures
      var d := Activated(db, def.name, targets);
      AsDefined(d, x.id, def) && IsBuildOf(d, x.id, def, x.challenge, x.seed)
  {
  }

  lemma DefinedIn(def: Schema, ch: ChallengeId, seed: int)
    requires Defined(def, ch, seed)
    ensures ch in def.challenges.Keys
  {
  }

  lemma DurableIsComplete(db: Db, def: Schema)
    requires forall b | b in db.builds && db.builds[b].schema == def.name && db.builds[b].instanceCount != LOCKED :: AsDefined(db, b, def)
    ensures ActiveComplete(db, def.name)
  {
  }

  lemma ActivationKeepsOthers(s: World, mid: World, d: World, name: string, targets: map<BuildId, int>)
    requires OthersKept(s, mid, name) && d == mid.(db := Activated(mid.db, name, targets))
    ensures OthersKept(s, d, name)
    ensures d.db.instances == mid.db.instances && d.db.schemas == mid.db.schemas
  {
  }

  /** Setting targets changes nothing a record speaks for. */
  lemma ActivationConsistent(s: World, name: string, targets: map<BuildId, int>)
    requires Consistent(s)
    ensures Consistent(s.(db := Activated(s.db, name, targets)))
  {
    hide Consistent;
    LessIsConsistent(s, s.(db := Activated(s.db, name, targets)));
  }

  function InstancesOfSchema(db: Db, name: string): (ids: set<InstanceId>)
    ensures forall i :: i in ids <==> i in db.instances && db.instances[i].build in db.builds && db.builds[db.instances[i].build].schema == name
  {
    set i | i in db.instances && db.instances[i].build in db.builds && db.builds[db.instances[i].build].schema == name
  }

  /** Removing what the definition does not ask for. */
  lemma PrunedKeepsDurable(s: World, a: World, d: World, def: Schema)
    requires ValidDefinition(def) && Sound(a) && OthersKept(s, a, def.name) && Durable(a.db, def)
    requires Pruned(a, d, InstancesOfSchema(a.db, def.name), LockedBuilds(a.db, def.name))
    ensures OthersKept(s, d, def.name) && Durable(d.db, def) && ActiveComplete(d.db, def.name) && d.db.schemas == a.db.schemas
  {
    hide FitsRuntime, BuildsDistinct, OwnedOrRetired, OwnedBy, Tracked;
    forall b | b in d.db.builds ensures d.db.builds[b] == a.db.builds[b] { }
    forall b | AsDefined(a.db, b, def) ensures AsDefined(d.db, b, def) { assert b !in LockedBuilds(a.db, def.name); }
    forall ch, seed, b | IsBuildOf(a.db, b, def, ch, seed) ensures IsBuildOf(d.db, b, def, ch, seed) { }
    OthersPruned(s, a, d, def.name);
  }

  lemma OthersPruned(s: World, a: World, d: World, name: string)
    requires Sound(a) && OthersKept(s, a, name)
    requires Pruned(a, d, InstancesOfSchema(a.db, name), LockedBuilds(a.db, name))
    ensures OthersKept(s, d, name)
  {
    hide FitsRuntime, BuildsDistinct, OwnedOrRetired, Tracked;
    ConstraintsGiveUniqueContainers(a.db);
    forall i, c | i in a.db.instances && i !in InstancesOfSchema(a.db, name) && c in a.db.instances[i].runtime.containers && c in a.running
      ensures c in d.running
    {
      assert !OwnedBy(a.db, InstancesOfSchema(a.db, name), c);
    }
  }

  /** A world on the way to a new definition that has not taken effect. */
  ghost predicate Early(s: World, d: World, name: string) {
    Fine(s, d) && Prior(s, d, name) && OthersKept(s, d, name) && ActiveComplete(d.db, name)
  }

  /** A world in which the new definition has taken effect. */
  ghost predicate Late(s: World, d: World, def: Schema) {
    Fine(s, d) && d.db.schemas == s.db.schemas && Durable(d.db, def) && OthersKept(s, d, def.name) && ActiveComplete(d.db, def.name)
  }

  lemma PriorIsEarly(s: World, d: World, name: string)
    requires Fine(s, d) && Prior(s, d, name) && ActiveComplete(s.db, name)
    ensures Early(s, d, name)
  {
    hide Sound, Consistent;
    PriorKeepsOthers(s, d, name);
    forall x | x in d.db.builds && d.db.builds[x].schema == name && d.db.builds[x].instanceCount != LOCKED
      ensures d.db.builds[x].output.flag != ""
    {
      assert x in s.db.builds;
      assert BuildKey(d.db.builds[x]) == BuildKey(s.db.builds[x]);
      assert !Unfinished(s.db, x, name);
    }
  }

  lemma EarlyStaging(s: World, name: string)
    requires Sound(s) && ActiveComplete(s.db, name)
    ensures forall d :: Sound(d) && StagedRows(s, d, name) ==> Early(s, d, name)
  {
    hide Sound, Consistent, StagedRows, Prior, Early;
    forall d | Sound(d) && StagedRows(s, d, name) ensures Early(s, d, name) {
      PriorStaged(s, d, name);
      if Consistent(s) { StagedConsistent(s, d, name); }
      PriorIsEarly(s, d, name);
    }
  }

  lemma EarlyGenerating(s: World, s1: World, name: string)
    requires Sound(s) && Sound(s1) && ActiveComplete(s.db, name) && StagedRows(s, s1, name)
    ensures forall d :: Sound(d) && Generated(s1, d, name) ==> Early(s, d, name)
  {
    hide Sound, Consistent, StagedRows, Prior, Early, Generated;
    forall d | Sound(d) && Generated(s1, d, name) ensures Early(s, d, name) {
      PriorGenerated(s, s1, d, name);
      if Consistent(s) { StagedConsistent(s, s1, name); GeneratedConsistent(s1, d, name); }
      PriorIsEarly(s, d, name);
    }
  }

  lemma EarlyScaling(s: World, s2: World, name: string)
    requires ActiveComplete(s.db, name) && Early(s, s2, name)
    ensures forall d :: Sound(d) && Preserves(s2, d) ==> Early(s, d, name)
  {
    hide Sound, Consistent, Prior, Early, Preserves;
    EarlyParts(s, s2, name);
    PriorPreserves(s, s2, name);
    SoundIdsOf(s2);
    forall d | Sound(d) && Preserves(s2, d) ensures Early(s, d, name) {
      if Consistent(s2) { PreservesConsistent(s2, d); }
      PriorIsEarly(s, d, name);
    }
  }

  lemma EarlyParts(s: World, d: World, name: string)
    requires Early(s, d, name)
    ensures Sound(d) && Prior(s, d, name) && Fine(s, d)
  {
    hide Consistent;
  }

  lemma EarlyStopping(s: World, start: World, created: seq<InstanceId>, name: string)
    requires IdsIssued(s) && ActiveComplete(s.db, name) && Early(s, start, name) && Created(s, start, created)
    ensures forall d :: Sound(d) && Pruned(start, d, IdsOf(created), {}) ==> Early(s, d, name)
  {
    hide Sound, Consistent, Prior, Early, Pruned, Created;
    EarlyParts(s, start, name);
    forall d | Sound(d) && Pruned(start, d, IdsOf(created), {}) ensures Early(s, d, name) {
      PriorPruned(s, start, d, created, name);
      if Consistent(start) { PrunedConsistent(start, d, IdsOf(created), {}); }
      PriorIsEarly(s, d, name);
    }
  }

  lemma ScalingCreated(s: World, s2: World, d: World, created: seq<InstanceId>, clean: bool, name: string)
    requires Prior(s, s2, name) && Scaling(s2, d, created, clean)
    requires s2.db.instances == s.db.instances
    ensures Created(s, d, created) && (clean ==> OnlyCreated(s, d, created))
    ensures Sound(d) && Preserves(s2, d)
    ensures forall i | i in created :: i in d.db.instances && i !in s.db.instances
    ensures forall a, b | 0 <= a < b < |created| :: created[a] != created[b]
  {
    hide Sound;
  }

  lemma InstancesSoFar(s: World, s1: World, s2: World, name: string)
    requires StagedRows(s, s1, name) && Generated(s1, s2, name)
    ensures s2.db.instances == s.db.instances
  {
  }

  lemma StagedInstances(s: World, d: World, name: string)
    requires StagedRows(s, d, name)
    ensures d.db.instances == s.db.instances
  {
  }

  /** Gives the new definition up: what was created for it is stopped. */
  method FailBeforeActivation(m: Manager, created: seq<InstanceId>, clean: bool, ghost s: World, ghost name: string) returns (r: ConvergeResult)
    requires Sound(s) && ActiveComplete(s.db, name) && Early(s, m.world, name)
    requires Created(s, m.world, created) && (clean ==> OnlyCreated(s, m.world, created))
    modifies m
    ensures r.NotActivated? && Early(s, m.world, name)
    ensures r.clean ==> m.world.db.instances == s.db.instances
    ensures m.reliable && clean ==> r.clean
    ensures old(m.crashPoints) <= m.crashPoints
    ensures forall d | d in m.crashPoints :: d in old(m.crashPoints) || Early(s, d, name)
  {
    hide *;
    ghost var start := m.world;
    EarlyParts(s, start, name);
    SoundIdsAndConstraints(s);
    CreatedParts(s, start, created);
    EarlyStopping(s, start, created, name);
    var stopped := StopCreated(m, created);
    PriorInstances(s, start, name);
    if clean && stopped { BackToOriginal(s, start, m.world, created); }
    r := NotActivated(clean && stopped);
  }

  lemma CreatedParts(s: World, d: World, created: seq<InstanceId>)
    requires Created(s, d, created)
    ensures forall i | i in created :: i in d.db.instances && i !in s.db.instances
    ensures forall a, b | 0 <= a < b < |created| :: created[a] != created[b]
  {
  }

  lemma PriorInstances(s: World, d: World, name: string)
    requires Prior(s, d, name)
    ensures Keeps(s.db.instances, d.db.instances)
  {
  }

  /** After the activation, clean-up and reductions only take away what is not asked for. */
  lemma LateCleaning(s: World, a: World, def: Schema)
    requires ValidDefinition(def) && Late(s, a, def)
    ensures forall d :: Sound(d) && CleanedUp(a, d, def.name) ==> Late(s, d, def)
    ensures forall d :: Sound(d) && Pruned(a, d, InstancesOfSchema(a.db, def.name), LockedBuilds(a.db, def.name)) ==> Late(s, d, def)
  {
    hide Sound, Consistent, Durable, OthersKept, Pruned, ActiveComplete;
    CleanedIsPruned(a, def.name);
    LockedAreOfSchema(a.db, def.name);
    forall d | Sound(d) && Pruned(a, d, InstancesOfSchema(a.db, def.name), LockedBuilds(a.db, def.name)) ensures Late(s, d, def) {
      PrunedKeepsDurable(s, a, d, def);
      if Consistent(a) { PrunedConsistent(a, d, InstancesOfSchema(a.db, def.name), LockedBuilds(a.db, def.name)); }
    }
    forall d | Sound(d) && CleanedUp(a, d, def.name) ensures Late(s, d, def) {
      PrunedMore(a, d, InstancesOfBuilds(a.db, LockedBuilds(a.db, def.name)), LockedBuilds(a.db, def.name),
                 InstancesOfSchema(a.db, def.name), LockedBuilds(a.db, def.name));
    }
  }

  lemma LockedAreOfSchema(db: Db, name: string)
    ensures InstancesOfBuilds(db, LockedBuilds(db, name)) <= InstancesOfSchema(db, name)
  {
  }

  lemma LateShrinking(s: World, a: World, def: Schema, state: seq<StagedBuild>)
    requires ValidDefinition(def) && Late(s, a, def)
    requires forall x | x in state :: x.id in a.db.builds && a.db.builds[x.id].schema == def.name
    ensures forall d :: Sound(d) && Pruned(a, d, InstancesOfBuilds(a.db, BuildsIn(state)), {}) ==> Late(s, d, def)
  {
    hide Sound, Durable, OthersKept, Pruned, ActiveComplete;
    LateCleaning(s, a, def);
    StateIsOfSchema(a.db, def, state);
    forall d | Sound(d) && Pruned(a, d, InstancesOfBuilds(a.db, BuildsIn(state)), {}) ensures Late(s, d, def) {
      PrunedMore(a, d, InstancesOfBuilds(a.db, BuildsIn(state)), {}, InstancesOfSchema(a.db, def.name), LockedBuilds(a.db, def.name));
    }
  }

  lemma StateIsOfSchema(db: Db, def: Schema, state: seq<StagedBuild>)
    requires forall x | x in state :: x.id in db.builds && db.builds[x.id].schema == def.name
    ensures InstancesOfBuilds(db, BuildsIn(state)) <= InstancesOfSchema(db, def.name)
  {
  }

  lemma BuildsPreserved(s: World, d: World, def: Schema, state: seq<StagedBuild>)
    requires Preserves(s, d) && AllPlanned(s.db, def, state) && Finished(s.db, state)
    ensures AllPlanned(d.db, def, state) && Finished(d.db, state)
  {
  }

  lemma PlannedTargets(db: Db, def: Schema, state: seq<StagedBuild>)
    requires ValidDefinition(def) && AllPlanned(db, def, state)
    ensures forall x | x in state :: x.target >= DYNAMIC_INSTANCES && x.id in db.builds && db.builds[x.id].schema == def.name
    ensures forall j, k | 0 <= j < |state| && 0 <= k < |state| && state[j].id == state[k].id :: state[j].target == state[k].target
  {
    forall j, k | 0 <= j < |state| && 0 <= k < |state| && state[j].id == state[k].id
      ensures state[j].target == state[k].target
    {
      assert Planned(db, def, state[j]) && Planned(db, def, state[k]);
    }
    forall x | x in state
      ensures x.target >= DYNAMIC_INSTANCES && x.id in db.builds && db.builds[x.id].schema == def.name
    {
      assert Planned(db, def, x);
    }
  }

  /** The definition took effect with the targets of `state`. */
  ghost predicate InEffect(a: World, def: Schema, state: seq<StagedBuild>) {
    && (forall x | x in state :: x.id in a.db.builds && a.db.builds[x.id].schema == def.name && a.db.builds[x.id].instanceCount == x.target)
    && (forall b | b in a.db.builds && a.db.builds[b].schema == def.name && a.db.builds[b].instanceCount != LOCKED ::
          exists x :: x in state && x.id == b && x.target == a.db.builds[b].instanceCount)
    && (forall x | x in state :: x.target >= DYNAMIC_INSTANCES)
  }

  lemma ActivationInEffect(s: World, a: World, def: Schema, state: seq<StagedBuild>, targets: map<BuildId, int>)
    requires a == s.(db := Activated(s.db, def.name, targets))
    requires forall x | x in state :: x.id in s.db.builds && s.db.builds[x.id].schema == def.name && x.target >= DYNAMIC_INSTANCES
    requires forall x | x in state :: x.id in targets && targets[x.id] == x.target
    requires forall b | b in a.db.builds && a.db.builds[b].schema == def.name && a.db.builds[b].instanceCount != LOCKED ::
      exists x :: x in state && x.id == b && x.target == a.db.builds[b].instanceCount
    ensures InEffect(a, def, state)
    ensures Staffed(s.db, state, |state|) ==> Staffed(a.db, state, |state|)
  {
    if Staffed(s.db, state, |state|) {
      forall j | 0 <= j < |state| && state[j].target != DYNAMIC_INSTANCES
        ensures |InstancesOf(a.db, state[j].id)| >= state[j].target
      {
        assert InstancesOf(a.db, state[j].id) == InstancesOf(s.db, state[j].id);
      }
    }
  }

  lemma StaffedAfterCleaning(a: World, d: World, def: Schema, state: seq<StagedBuild>)
    requires InEffect(a, def, state) && CleanedUp(a, d, def.name) && Staffed(a.db, state, |state|)
    ensures Staffed(d.db, state, |state|)
    ensures forall x | x in state :: x.id in d.db.builds && d.db.builds[x.id].schema == def.name
  {
    hide OwnedBy;
    forall j | 0 <= j < |state|
      ensures InstancesOf(d.db, state[j].id) == InstancesOf(a.db, state[j].id)
    {
      assert state[j] in state;
      assert state[j].id !in LockedBuilds(a.db, def.name);
    }
    forall x | x in state ensures x.id in d.db.builds { assert x.id !in LockedBuilds(a.db, def.name); }
  }

  lemma NothingObsolete(a: World, b5: World, d: World, def: Schema, state: seq<StagedBuild>)
    requires InEffect(a, def, state) && CleanedUp(a, b5, def.name) && Pruned(b5, d, InstancesOfBuilds(b5.db, BuildsIn(state)), {})
    requires forall b | b in LockedBuilds(a.db, def.name) :: b !in b5.db.builds
    requires Exact(d.db, state, |state|) && Durable(d.db, def)
    ensures Converged(d.db, def)
  {
    hide OwnedBy, AsDefined, IsBuildOf;
    forall b | b in d.db.builds && d.db.builds[b].schema == def.name
      ensures AsDefined(d.db, b, def)
      ensures d.db.builds[b].instanceCount >= 0 ==> |InstancesOf(d.db, b)| == d.db.builds[b].instanceCount
    {
      assert b in b5.db.builds && b in a.db.builds && d.db.builds[b] == a.db.builds[b];
      assert b !in LockedBuilds(a.db, def.name);
      var x :| x in state && x.id == b && x.target == a.db.builds[b].instanceCount;
      var j :| 0 <= j < |state| && state[j] == x;
    }
  }

  lemma FineActivation(s: World, s3: World, name: string, targets: map<BuildId, int>)
    requires Fine(s, s3)
    ensures Fine(s, s3.(db := Activated(s3.db, name, targets)))
  {
    hide Sound, Consistent;
    SoundActivated(s3, name, targets);
    if Consistent(s3) { ActivationConsistent(s3, name, targets); }
  }

  lemma LateFrom(s: World, a: World, def: Schema)
    requires Fine(s, a) && Durable(a.db, def) && OthersKept(s, a, def.name) && ActiveComplete(a.db, def.name) && a.db.schemas == s.db.schemas
    ensures Late(s, a, def)
  {
  }

  lemma LateParts(s: World, a: World, def: Schema)
    requires Late(s, a, def)
    ensures Sound(a) && Durable(a.db, def)
  {
  }

  lemma EarlyOthers(s: World, d: World, name: string)
    requires Early(s, d, name)
    ensures OthersKept(s, d, name) && d.db.schemas == s.db.schemas && Fine(s, d)
  {
  }

  lemma EarlySelf(s: World, name: string)
    requires Sound(s) && ActiveComplete(s.db, name)
    ensures Early(s, s, name) && Created(s, s, []) && OnlyCreated(s, s, [])
  {
    hide Sound, Consistent;
    StagedRowsRefl(s, name);
    PriorStaged(s, s, name);
    FineSelf(s);
    PriorIsEarly(s, s, name);
  }

  lemma NoneCreated(s: World, d: World)
    requires d.db.instances == s.db.instances
    ensures Created(s, d, []) && OnlyCreated(s, d, [])
  {
  }

  /** Once a definition is in effect: what it does not ask for goes. */
  method SettleSchema(m: Manager, def: Schema, state: seq<StagedBuild>, ghost s: World) returns (ok: bool)
    requires ValidDefinition(def) && Sound(m.world) && Late(s, m.world, def)
    requires InEffect(m.world, def, state) && Staffed(m.world.db, state, |state|)
    requires forall j, k | 0 <= j < |state| && 0 <= k < |state| && state[j].id == state[k].id :: state[j].target == state[k].target
    modifies m
    ensures Late(s, m.world, def)
    ensures ok ==> Converged(m.world.db, def) && RestIntact(old(m.world), m.world)
    ensures m.reliable ==> ok
    ensures old(m.crashPoints) <= m.crashPoints
    ensures forall d | d in m.crashPoints :: d in old(m.crashPoints) || Late(s, d, def)
  {
    hide *;
    ghost var a := m.world;
    LateCleaning(s, a, def);
    var cleaned := CleanupSchemaResources(m, def.name);
    ghost var c := m.world;
    StaffedAfterCleaning(a, c, def, state);
    LateShrinking(s, c, def, state);
    InEffectTargets(a, def, state);
    var shrunk := ScaleDown(m, state);
    LateParts(s, m.world, def);
    if cleaned && shrunk {
      NothingObsolete(a, c, m.world, def, state);
      RestIntactTrans(a, c, m.world);
    }
    ok := cleaned && shrunk;
  }

  lemma InEffectTargets(a: World, def: Schema, state: seq<StagedBuild>)
    requires InEffect(a, def, state)
    ensures forall x | x in state :: x.target >= DYNAMIC_INSTANCES
  {
  }

  // ------------------------------------------------------ what is certain

  /** Every key of the definition has a finished row. */
  ghost predicate AllBuilt(db: Db, def: Schema) {
    forall ch, seed | Defined(def, ch, seed) :: exists b :: HasKey(db, b, def.name, def.flagFormat, ch, seed) && db.builds[b].output.flag != ""
  }

  /** Every fixed count of the definition is reached already. */
  ghost predicate AllStaffed(db: Db, def: Schema) {
    forall ch, seed | Defined(def, ch, seed) && def.challenges[ch].instanceCount > 0 ::
      exists b :: HasKey(db, b, def.name, def.flagFormat, ch, seed) && |InstancesOf(db, b)| >= def.challenges[ch].instanceCount
  }

  /** One published name of one instance the definition asks for. */
  datatype Demand = Demand(challenge: ChallengeId, seed: int, number: int, name: string)

  ghost function Demands(db: Db, def: Schema): set<Demand> {
    set ch, seed, j, n | ch in def.challenges && seed in def.challenges[ch].seeds && 0 <= j < def.challenges[ch].instanceCount
                         && ch in db.challenges && n in db.challenges[ch].portMap :: Demand(ch, seed, j, n)
  }

  /** Whatever the definition asks for can be started: the images that are there fit the
      records, nobody holds a port that is not on record, and there are ports enough even if
      all instances had to be started anew. */
  ghost predicate CanStaffAll(s: World, def: Schema, low: nat, high: nat) {
    && HeldPorts(s) <= UsedPorts(s.db)
    && (forall ch | ch in def.challenges :: ch in s.db.challenges && (low != 0 ==> |s.db.challenges[ch].portMap.Keys| <= 1 && high < 65536))
    && (forall b | b in s.db.builds && s.db.builds[b].schema == def.name && s.db.builds[b].output.flag != "" :: HasImages(s, b))
    && |Demands(s.db, def)| <= |SparePorts(s.db, low, high)|
  }

  ghost predicate AllBuildable(db: Db, def: Schema, inventory: map<ChallengeId, Challenge>) {
    forall ch | ch in def.challenges :: Buildable(db, inventory, ch)
  }

  lemma BuildableGroups(s: World, s1: World, def: Schema, inventory: map<ChallengeId, Challenge>)
    requires StagedRows(s, s1, def.name)
    ensures AllBuildable(s.db, def, inventory) ==> forall ch | ch in def.challenges :: Buildable(s1.db, inventory, ch)
  {
    hide Current;
  }

  lemma SameKeySameRow(db: Db, x: BuildId, b: BuildId, name: string, format: string, ch: ChallengeId, seed: int)
    requires UniqueBuilds(db.builds) && HasKey(db, x, name, format, ch, seed) && HasKey(db, b, name, format, ch, seed)
    ensures x == b
  {
  }

  lemma BuiltIsFlagged(s: World, s1: World, def: Schema, state: seq<StagedBuild>)
    requires AllBuilt(s.db, def) && StagedRows(s, s1, def.name) && Sound(s1) && AllPlanned(s1.db, def, state) && AsFlagged(s1.db, state)
    ensures forall x | x in state :: x.flag != ""
  {
    hide Sound, Defined, UniqueBuilds;
    SoundUniqueBuilds(s1);
    forall x | x in state
      ensures x.flag != ""
    {
      assert Planned(s1.db, def, x);
      var b :| HasKey(s.db, b, def.name, def.flagFormat, x.challenge, x.seed) && s.db.builds[b].output.flag != "";
      SameKeySameRow(s1.db, x.id, b, def.name, def.flagFormat, x.challenge, x.seed);
    }
  }

  lemma SoundUniqueBuilds(s: World)
    requires Sound(s)
    ensures UniqueBuilds(s.db.builds)
  {
  }

  lemma StaffedIsStaffed(s: World, s1: World, s2: World, def: Schema, state: seq<StagedBuild>)
    requires AllStaffed(s.db, def) && StagedRows(s, s1, def.name) && Sound(s1) && AllPlanned(s1.db, def, state)
    requires s2.db.instances == s.db.instances
    ensures Staffed(s2.db, state, |state|)
  {
    hide Sound, Defined, UniqueBuilds;
    SoundUniqueBuilds(s1);
    forall k | 0 <= k < |state| && state[k].target != DYNAMIC_INSTANCES
      ensures |InstancesOf(s2.db, state[k].id)| >= state[k].target
    {
      var x := state[k];
      assert Planned(s1.db, def, x);
      if x.target > 0 {
        var b :| HasKey(s.db, b, def.name, def.flagFormat, x.challenge, x.seed) && |InstancesOf(s.db, b)| >= x.target;
        SameKeySameRow(s1.db, x.id, b, def.name, def.flagFormat, x.challenge, x.seed);
        assert InstancesOf(s2.db, b) == InstancesOf(s.db, b);
      }
    }
  }

  lemma {:induction false} Injected<A, B>(a: set<A>, b: set<B>, f: A -> B)
    requires forall x | x in a :: f(x) in b
    requires forall x, y | x in a && y in a && f(x) == f(y) :: x == y
    ensures |a| <= |b|
    decreases |a|
  {
    if x :| x in a {
      Injected(a - {x}, b - {f(x)}, f);
    }
  }

  /** Every vacancy is one of the demands. */
  lemma FewerThanDemanded(s: World, s2: World, def: Schema, state: seq<StagedBuild>)
    requires Sound(s2) && AllPlanned(s2.db, def, state) && s2.db.challenges == s.db.challenges && def.challenges.Keys <= s.db.challenges.Keys
    requires forall x | x in state :: HasImages(s2, x.id)
    ensures |Vacancies(s2.db, PlannedTargetsOf(s2.db, def, state))| <= |Demands(s.db, def)|
  {
    hide Sound, UniqueBuilds, PublishedNames, InstancesOf;
    SoundUniqueBuilds(s2);
    var targets := PlannedTargetsOf(s2.db, def, state);
    var vacancies, demands := Vacancies(s2.db, targets), Demands(s.db, def);
    var f := (v: Vacancy) =>
      if v.build in s2.db.builds then Demand(s2.db.builds[v.build].challenge, s2.db.builds[v.build].seed, v.number, v.name) else Demand("", 0, v.number, v.name);
    forall v | v in vacancies
      ensures f(v) in demands
    {
      TargetIsPlanned(s2.db, def, state, v.build);
      var x :| x in state && x.id == v.build && Planned(s2.db, def, x);
      NamesKnown(s2, v.build, v.name);
    }
    forall v, u | v in vacancies && u in vacancies && f(v) == f(u)
      ensures v == u
    {
      TargetIsPlanned(s2.db, def, state, v.build);
      TargetIsPlanned(s2.db, def, state, u.build);
      SameKeySameRow(s2.db, v.build, u.build, def.name, def.flagFormat, s2.db.builds[v.build].challenge, s2.db.builds[v.build].seed);
    }
    Injected(vacancies, demands, f);
  }

  lemma TargetIsPlanned(db: Db, def: Schema, state: seq<StagedBuild>, b: BuildId)
    requires AllPlanned(db, def, state) && b in PlannedTargetsOf(db, def, state)
    ensures exists x :: x in state && x.id == b && Planned(db, def, x)
    ensures b in db.builds && HasKey(db, b, def.name, def.flagFormat, db.builds[b].challenge, db.builds[b].seed)
    ensures db.builds[b].challenge in def.challenges && db.builds[b].seed in def.challenges[db.builds[b].challenge].seeds
    ensures PlannedTargetsOf(db, def, state)[b] == def.challenges[db.builds[b].challenge].instanceCount
  {
    var k :| 0 <= k < |state| && state[k].id == b;
    assert Planned(db, def, state[k]);
  }

  lemma NamesKnown(w: World, b: BuildId, n: string)
    requires HasImages(w, b) && n in PublishedNames(w.db.builds[b].output.images)
    ensures n in w.db.challenges[w.db.builds[b].challenge].portMap
  {
    var images := w.db.builds[b].output.images;
    var k :| 0 <= k < |images| && images[k].host != BUILDER && n in images[k].ports;
    assert Runnable(images, k);
  }

  /** A finished row has its images, old or new. */
  lemma FinishedHasImages(s: World, s1: World, s2: World, def: Schema, b: BuildId)
    requires StagedRows(s, s1, def.name) && Generated(s1, s2, def.name)
    requires forall x | x in s.db.builds && s.db.builds[x].schema == def.name && s.db.builds[x].output.flag != "" :: HasImages(s, x)
    requires b in s2.db.builds && s2.db.builds[b].schema == def.name && s2.db.builds[b].output.flag != ""
    requires s2.db.builds[b].challenge in s.db.challenges
    ensures HasImages(s2, b)
  {
    hide ImagesOf;
    var ch, images := s2.db.builds[b].challenge, s2.db.builds[b].output.images;
    if b in s.db.builds && s.db.builds[b].output.flag != "" {
      assert !Unfinished(s1.db, b, def.name);
      forall k: nat | Runnable(images, k)
        ensures images[k].ports <= s2.db.challenges[ch].portMap.Keys && TagName(ch, b, images[k].host, "") in s2.tags
      {
        assert HasImages(s, b);
        assert Lookup(s2.tags, TagName(ch, b, images[k].host, "")) == Lookup(s1.tags, TagName(ch, b, images[k].host, ""));
      }
    } else {
      assert Unfinished(s1.db, b, def.name) by { StagedIsUnfinished(s, s1, s2, def.name, b); }
      assert FinishedAsRecorded(s1, s2, b);
      forall k: nat | Runnable(images, k)
        ensures images[k].ports <= s2.db.challenges[ch].portMap.Keys && TagName(ch, b, images[k].host, "") in s2.tags
      {
        assert images[k] in images;
      }
    }
  }

  lemma StagedIsUnfinished(s: World, s1: World, s2: World, name: string, b: BuildId)
    requires StagedRows(s, s1, name) && Generated(s1, s2, name) && b in s2.db.builds && s2.db.builds[b].schema == name
    requires b in s.db.builds ==> s.db.builds[b].output.flag == ""
    ensures Unfinished(s1.db, b, name)
  {
    assert BuildKey(s2.db.builds[b]) == BuildKey(s1.db.builds[b]);
  }

  lemma GeneratedHolds(s: World, s1: World, s2: World, name: string)
    requires Sound(s) && StagedRows(s, s1, name) && Generated(s1, s2, name)
    ensures HeldPorts(s2) == HeldPorts(s) && s2.db.instances == s.db.instances && s2.db.challenges == s.db.challenges
  {
    hide Constraints, FitsRuntime, BuildsDistinct, OwnedOrRetired, UsedPorts;
    forall c, n | c in s.running
      ensures c in s.containers && c in s2.containers && s2.containers[c] == s.containers[c]
      ensures (Holds(s2, c, n) <==> Holds(s, c, n)) && (Holds(s, c, n) ==> HeldPort(s2, c, n) == HeldPort(s, c, n))
    {
    }
  }

  lemma AtMostOneName(low: nat, high: nat, names: set<string>, known: set<string>)
    requires names <= known && (low != 0 ==> |known| <= 1 && high < 65536)
    ensures Distinguishable(low, high, names, map[])
  {
    assert NewNames(names, map[]) == names;
    SubsetCounts(names, known);
  }

  lemma KnownNames(w: World, b: BuildId)
    requires HasImages(w, b)
    ensures PublishedNames(w.db.builds[b].output.images) <= w.db.challenges[w.db.builds[b].challenge].portMap.Keys
  {
    forall n | n in PublishedNames(w.db.builds[b].output.images) ensures n in w.db.challenges[w.db.builds[b].challenge].portMap {
      NamesKnown(w, b, n);
    }
  }

  /** What the definition asks for can be started once all is built. */
  lemma CanStaffPlanned(s: World, s1: World, s2: World, def: Schema, state: seq<StagedBuild>, low: nat, high: nat)
    requires Sound(s) && StagedRows(s, s1, def.name) && Generated(s1, s2, def.name) && Sound(s2)
    requires CanStaffAll(s, def, low, high) && AllPlanned(s2.db, def, state) && Finished(s2.db, state)
    ensures CanStaff(s2, low, high, PlannedTargetsOf(s2.db, def, state))
  {
    hide Sound, StagedRows, Generated, HeldPorts, UsedPorts, HasImages, PublishedNames, Distinguishable, Demands, Vacancies, SparePorts, InstancesOf;
    var targets := PlannedTargetsOf(s2.db, def, state);
    GeneratedHolds(s, s1, s2, def.name);
    SameSpare(s, s2, low, high);
    forall x | x in state
      ensures HasImages(s2, x.id)
    {
      assert Planned(s2.db, def, x);
      FinishedHasImages(s, s1, s2, def, x.id);
    }
    FewerThanDemanded(s, s2, def, state);
    forall b | Short(s2.db, targets, b)
      ensures Servable(s2, low, high, b)
    {
      TargetIsPlanned(s2.db, def, state, b);
      KnownNames(s2, b);
      AtMostOneName(low, high, PublishedNames(s2.db.builds[b].output.images), s2.db.challenges[s2.db.builds[b].challenge].portMap.Keys);
    }
  }

  lemma SameSpare(s: World, d: World, low: nat, high: nat)
    requires d.db.instances == s.db.instances
    ensures UsedPorts(d.db) == UsedPorts(s.db) && SparePorts(d.db, low, high) == SparePorts(s.db, low, high)
  {
    assert UsedPorts(d.db) == UsedPorts(s.db);
  }

  /**
   Brings a schema to its definition: stage, build and scale up while the old definition stays
   in effect, activate in one transaction, and only then clean up and scale down.
   */
  method ConvergeSchema(m: Manager, def: Schema, inventory: map<ChallengeId, Challenge>, inventoryErrors: bool)
    returns (r: ConvergeResult, ghost refused: bool)
    requires m.portLow == 0 || m.portLow <= m.portHigh
    requires ValidDefinition(def) && Sound(m.world) && ActiveComplete(m.world.db, def.name)
    modifies m
    ensures r.UnknownSchema? ==> m.world == old(m.world)
    ensures m.reliable && def.name in old(m.world.db.schemas) ==> !r.UnknownSchema?
    ensures r.NotActivated? ==> Early(old(m.world), m.world, def.name)
    ensures r == NotActivated(true) ==> m.world.db.instances == old(m.world.db.instances)
    ensures r.ActivatedAs? ==> Late(old(m.world), m.world, def)
    ensures r == ActivatedAs(true) ==> Converged(m.world.db, def) && NewAreHealthy(old(m.world), m.world)
    ensures m.reliable ==> r != NotActivated(false) && r != ActivatedAs(false)
    ensures
      var known := def.name in old(m.world.db.schemas) && def.challenges.Keys <= old(m.world.db.challenges.Keys);
      var built := AllBuilt(old(m.world.db), def) || (m.fortunate && !inventoryErrors && AllBuildable(old(m.world.db), def, inventory));
      m.reliable && known && built && !refused ==> r == ActivatedAs(true)
    ensures AllStaffed(old(m.world.db), def) ==> !refused
    ensures m.reliable && m.fortunate && CanStaffAll(old(m.world), def, m.portLow, m.portHigh) ==> !refused
    ensures old(m.crashPoints) <= m.crashPoints
    ensures forall d | d in m.crashPoints ::
      d in old(m.crashPoints) || Early(old(m.world), d, def.name) || (r.ActivatedAs? && Late(old(m.world), d, def))
  {
    hide *;
    ghost var s := m.world;
    refused := false;
    EarlySelf(s, def.name);
    var read := m.Query();
    if !read || def.name !in m.world.db.schemas {
      return UnknownSchema, refused;
    }
    EarlyStaging(s, def.name);
    var ok, state, groups := StageSchema(m, def);
    ghost var s1 := m.world;
    StagedInstances(s, s1, def.name);
    NoneCreated(s, s1);
    if !ok {
      r := FailBeforeActivation(m, [], true, s, def.name);
      return;
    }
    EarlyGenerating(s, s1, def.name);
    if AllBuilt(s.db, def) { BuiltIsFlagged(s, s1, def, state); }
    BuildableGroups(s, s1, def, inventory);
    ok := GenerateSchema(m, def, state, groups, inventory, inventoryErrors);
    ghost var s2 := m.world;
    InstancesSoFar(s, s1, s2, def.name);
    NoneCreated(s, s2);
    if !ok {
      r := FailBeforeActivation(m, [], true, s, def.name);
      return;
    }
    BeforeScaling(s, s1, s2, def, state, m.portLow, m.portHigh);
    var created, clean;
    ok, created, clean, refused := ScaleUp(m, def, state);
    ghost var s3 := m.world;
    ScalingCreated(s, s2, s3, created, clean, def.name);
    EarlyParts(s, s3, def.name);
    if !ok {
      r := FailBeforeActivation(m, created, clean, s, def.name);
      return;
    }
    BuildsPreserved(s2, s3, def, state);
    PlannedTargets(s3.db, def, state);
    var targets := TargetsOf(state, m.world.db, def);
    ok := ActivateSchemaBuilds(m, def.name, targets);
    ghost var a := m.world;
    if !ok {
      r := FailBeforeActivation(m, created, clean, s, def.name);
      return;
    }
    ActivatedIsLate(s, s3, a, def, state, targets);
    ok := SettleSchema(m, def, state, s);
    if ok {
      LateParts(s, m.world, def);
      CreatedStayHealthy(s, s3, a, m.world, created, def.name, targets);
    }
    r := ActivatedAs(ok);
  }

  lemma BeforeScaling(s: World, s1: World, s2: World, def: Schema, state: seq<StagedBuild>, low: nat, high: nat)
    requires Sound(s) && ActiveComplete(s.db, def.name) && Early(s, s2, def.name) && StagedRows(s, s1, def.name) && Sound(s1) && Generated(s1, s2, def.name)
    requires AllPlanned(s1.db, def, state) && AllPlanned(s2.db, def, state) && Finished(s2.db, state) && s2.db.instances == s.db.instances
    ensures Sound(s2) && Prior(s, s2, def.name) && forall d :: Sound(d) && Preserves(s2, d) ==> Early(s, d, def.name)
    ensures AllStaffed(s.db, def) ==> Staffed(s2.db, state, |state|)
    ensures CanStaffAll(s, def, low, high) ==> CanStaff(s2, low, high, PlannedTargetsOf(s2.db, def, state))
  {
    hide *;
    EarlyParts(s, s2, def.name);
    EarlyScaling(s, s2, def.name);
    if AllStaffed(s.db, def) { StaffedIsStaffed(s, s1, s2, def, state); }
    if CanStaffAll(s, def, low, high) { CanStaffPlanned(s, s1, s2, def, state, low, high); }
  }

  lemma ActivatedIsLate(s: World, s3: World, a: World, def: Schema, state: seq<StagedBuild>, targets: map<BuildId, int>)
    requires ValidDefinition(def) && Early(s, s3, def.name) && a == s3.(db := Activated(s3.db, def.name, targets))
    requires AllPlanned(s3.db, def, state) && Finished(s3.db, state) && Covers(def, state, def.challenges.Keys)
    requires forall b | b in targets :: exists x :: x in state && x.id == b && x.target == targets[b]
    requires forall x | x in state :: x.id in targets && targets[x.id] == x.target
    ensures Late(s, a, def) && InEffect(a, def, state)
    ensures Staffed(s3.db, state, |state|) ==> Staffed(a.db, state, |state|)
  {
    hide *;
    PlannedTargets(s3.db, def, state);
    ActivationIsDurable(s3, a, def, state, targets);
    ActivationInEffect(s3, a, def, state, targets);
    EarlyOthers(s, s3, def.name);
    ActivationKeepsOthers(s, s3, a, def.name, targets);
    FineActivation(s, s3, def.name, targets);
    LateFrom(s, a, def);
  }

  /** Instances are what they were, or new and running one container per image. */
  ghost predicate NewAreHealthy(s: World, d: World) {
    forall i | i in d.db.instances :: Healthy(d, i) || (i in s.db.instances && d.db.instances[i] == s.db.instances[i])
  }

  lemma CreatedStayHealthy(s: World, s3: World, a: World, d: World, created: seq<InstanceId>, name: string, targets: map<BuildId, int>)
    requires Created(s, s3, created) && OnlyCreated(s, s3, created) && Prior(s, s3, name)
    requires a == s3.(db := Activated(s3.db, name, targets)) && RestIntact(a, d) && Sound(d)
    ensures NewAreHealthy(s, d)
  {
    hide Sound, Healthy, RestIntact;
    SoundForeignKeys(d);
    forall i | i in d.db.instances
      ensures Healthy(d, i) || (i in s.db.instances && d.db.instances[i] == s.db.instances[i])
    {
      InstanceRest(a, d, i);
      if i !in s.db.instances {
        assert Healthy(s3, i);
        HealthyActivated(s3, i, name, targets);
        HealthyRest(a, d, i);
      }
    }
  }

  lemma InstanceRest(a: World, d: World, i: InstanceId)
    requires RestIntact(a, d) && i in d.db.instances
    ensures i in a.db.instances && d.db.instances[i] == a.db.instances[i]
  {
  }

  lemma HealthyActivated(w: World, i: InstanceId, name: string, targets: map<BuildId, int>)
    requires Healthy(w, i)
    ensures Healthy(w.(db := Activated(w.db, name, targets)), i)
  {
  }

  // ------------------------------------------------- updating and creating

  /** What a crash while `name` changes may leave: other schemas are as they were. */
  ghost predicate Changing(s: World, d: World, name: string) {
    && Fine(s, d) && OthersKept(s, d, name) && ActiveComplete(d.db, name)
    && (d.db.schemas == s.db.schemas || (name !in s.db.schemas && d.db.schemas == s.db.schemas[name := false]))
    && (name in d.db.schemas || forall b | b in d.db.builds :: d.db.builds[b].schema != name)
  }

  lemma ChangingOrderly(s: World, d: World, name: string)
    requires Orderly(s) && Changing(s, d, name)
    ensures Orderly(d)
  {
    hide Sound, Consistent;
    forall other: string | !IsManual(other) && other != name
      ensures ActiveComplete(d.db, other)
    {
      assert ActiveComplete(s.db, other);
    }
  }

  lemma OthersKeptTrans(s: World, mid: World, d: World, name: string)
    requires OthersKept(s, mid, name) && OthersKept(mid, d, name)
    ensures OthersKept(s, d, name)
  {
  }

  lemma EarlyIsChanging(s: World, n: World, name: string)
    requires Changing(s, n, name) && name in n.db.schemas
    ensures forall d :: Early(n, d, name) ==> Changing(s, d, name)
  {
    hide Sound, Consistent, OthersKept, Prior, ActiveComplete;
    forall d | Early(n, d, name) ensures Changing(s, d, name) {
      EarlyOthers(n, d, name);
      OthersKeptTrans(s, n, d, name);
    }
  }

  lemma LateIsChanging(s: World, n: World, def: Schema)
    requires Changing(s, n, def.name) && def.name in n.db.schemas
    ensures forall d :: Late(n, d, def) ==> Changing(s, d, def.name)
  {
    hide Sound, Consistent, OthersKept, ActiveComplete, Durable;
    forall d | Late(n, d, def) ensures Changing(s, d, def.name) { OthersKeptTrans(s, n, d, def.name); }
  }

  lemma ChangingSelf(s: World, name: string)
    requires Orderly(s) && !IsManual(name)
    ensures Changing(s, s, name)
  {
    hide Sound, Consistent;
    FineSelf(s);
  }

  /** Updates a schema that is on record; anything else is refused. */
  method UpdateSchema(m: Manager, def: Schema, inventory: map<ChallengeId, Challenge>, inventoryErrors: bool)
    returns (r: ConvergeResult, ghost refused: bool)
    requires m.portLow == 0 || m.portLow <= m.portHigh
    requires Orderly(m.world)
    modifies m
    ensures !ValidDefinition(def) || def.name !in old(m.world.db.schemas) ==> r.UnknownSchema?
    ensures r.UnknownSchema? ==> m.world == old(m.world)
    ensures r.NotActivated? ==> Early(old(m.world), m.world, def.name)
    ensures r == NotActivated(true) ==> m.world.db.instances == old(m.world.db.instances)
    ensures r.ActivatedAs? ==> Late(old(m.world), m.world, def)
    ensures r == ActivatedAs(true) ==> Converged(m.world.db, def) && NewAreHealthy(old(m.world), m.world)
    ensures m.reliable ==> r != NotActivated(false) && r != ActivatedAs(false)
    ensures m.reliable && m.fortunate && ValidDefinition(def) && def.name in old(m.world.db.schemas) ==> !r.UnknownSchema?
    ensures
      var known := def.challenges.Keys <= old(m.world.db.challenges.Keys);
      var built := AllBuilt(old(m.world.db), def) || (m.fortunate && !inventoryErrors && AllBuildable(old(m.world.db), def, inventory));
      m.reliable && !r.UnknownSchema? && known && built && !refused ==> r == ActivatedAs(true)
    ensures AllStaffed(old(m.world.db), def) ==> !refused
    ensures m.reliable && m.fortunate && CanStaffAll(old(m.world), def, m.portLow, m.portHigh) ==> !refused
    ensures !r.UnknownSchema? ==> Changing(old(m.world), m.world, def.name)
    ensures old(m.crashPoints) <= m.crashPoints
    ensures forall d | d in m.crashPoints :: d in old(m.crashPoints) || Changing(old(m.world), d, def.name)
  {
    hide *;
    ghost var s := m.world;
    refused := false;
    var valid := ValidateSchemaDefinition(def);
    var allowed := m.Outside();
    if !valid || !allowed {
      return UnknownSchema, refused;
    }
    var read := m.Query();
    if !read || def.name !in m.world.db.schemas {
      return UnknownSchema, refused;
    }
    OrderlyParts(s, def);
    ChangingSelf(s, def.name);
    EarlyIsChanging(s, s, def.name);
    LateIsChanging(s, s, def);
    r, refused := ConvergeSchema(m, def, inventory, inventoryErrors);
  }

  lemma OrderlyParts(s: World, def: Schema)
    requires Orderly(s)
    ensures Sound(s) && SchemasOnRecord(s.db)
    ensures ValidDefinition(def) ==> ActiveComplete(s.db, def.name) && !IsManual(def.name)
  {
  }

  datatype CreateResult = Refused | Established | Kept | Withdrawn

  /** Creates a schema.  One that could not take effect is withdrawn with all it left. */
  method CreateSchema(m: Manager, def: Schema, inventory: map<ChallengeId, Challenge>, inventoryErrors: bool)
    returns (r: CreateResult, ghost refused: bool)
    requires m.portLow == 0 || m.portLow <= m.portHigh
    requires Orderly(m.world)
    modifies m
    ensures !ValidDefinition(def) || def.name in old(m.world.db.schemas) ==> r.Refused?
    ensures r.Refused? ==> m.world == old(m.world)
    ensures !r.Refused? ==> Changing(old(m.world), m.world, def.name)
    ensures r.Established? ==> Converged(m.world.db, def) && def.name in m.world.db.schemas && NewAreHealthy(old(m.world), m.world)
    ensures r.Withdrawn? ==>
      && m.world.db.schemas == old(m.world.db.schemas)
      && (forall b | b in m.world.db.builds :: m.world.db.builds[b].schema != def.name)
    ensures m.reliable ==> !r.Kept?
    ensures m.reliable && m.fortunate && ValidDefinition(def) && def.name !in old(m.world.db.schemas) ==> !r.Refused?
    ensures
      var known := def.challenges.Keys <= old(m.world.db.challenges.Keys);
      m.reliable && m.fortunate && !r.Refused? && known && !inventoryErrors && AllBuildable(old(m.world.db), def, inventory) && !refused ==> r.Established?
    ensures m.reliable && m.fortunate && CanStaffAll(old(m.world), def, m.portLow, m.portHigh) ==> !refused
    ensures old(m.crashPoints) <= m.crashPoints
    ensures forall d | d in m.crashPoints :: d in old(m.crashPoints) || Changing(old(m.world), d, def.name)
  {
    hide *;
    ghost var s := m.world;
    refused := false;
    var valid := ValidateSchemaDefinition(def);
    var allowed := m.Outside();
    if !valid || !allowed {
      return Refused, refused;
    }
    var read := m.Query();
    if !read || def.name in m.world.db.schemas {
      return Refused, refused;
    }
    OrderlyParts(s, def);
    ChangingSelf(s, def.name);
    NewSchema(s, def.name);
    var recorded := m.Commit(m.world.db.(schemas := m.world.db.schemas[def.name := false]));
    if !recorded {
      return Refused, refused;
    }
    ghost var n := m.world;
    SchemaRecorded(s, n, def, inventory, m.portLow, m.portHigh);
    EarlyIsChanging(s, n, def.name);
    LateIsChanging(s, n, def);
    var converged;
    converged, refused := ConvergeSchema(m, def, inventory, inventoryErrors);
    ghost var w := m.world;
    AfterConvergence(n, w, def, converged);
    if converged == ActivatedAs(true) {
      HealthySince(s, n, w);
      return Established, refused;
    }
    read := m.Query();
    var active := exists b :: b in m.world.db.builds && m.world.db.builds[b].schema == def.name && m.world.db.builds[b].instanceCount != LOCKED;
    if !read || active {
      return Kept, refused;
    }
    CleaningChanges(s, w, def.name);
    var cleaned := CleanupSchemaResources(m, def.name);
    if !cleaned {
      return Kept, refused;
    }
    NoBuildsLeft(w, m.world, def.name);
    UnrecordedChanges(s, m.world, def.name);
    read := m.Query();
    if !read {
      return Kept, refused;
    }
    recorded := m.Commit(m.world.db.(schemas := m.world.db.schemas - {def.name}));
    if !recorded {
      return Kept, refused;
    }
    r := Withdrawn;
  }

  /** The record of the schema itself does not matter for what can be built and started. */
  lemma SchemaRecorded(s: World, n: World, def: Schema, inventory: map<ChallengeId, Challenge>, low: nat, high: nat)
    requires n == s.(db := s.db.(schemas := n.db.schemas))
    ensures AllBuildable(s.db, def, inventory) ==> AllBuildable(n.db, def, inventory)
    ensures CanStaffAll(s, def, low, high) ==> CanStaffAll(n, def, low, high)
  {
    hide Current;
    SameSpare(s, n, low, high);
    assert forall c, k | c in s.containers :: Holds(n, c, k) <==> Holds(s, c, k);
    assert forall c, k | c in s.containers && Holds(s, c, k) :: HeldPort(n, c, k) == HeldPort(s, c, k);
    assert HeldPorts(n) == HeldPorts(s);
    assert Demands(n.db, def) == Demands(s.db, def);
  }

  lemma HealthySince(s: World, n: World, w: World)
    requires NewAreHealthy(n, w) && n.db.instances == s.db.instances
    ensures NewAreHealthy(s, w)
  {
    hide Healthy;
  }

  lemma NewSchema(s: World, name: string)
    requires Orderly(s) && name !in s.db.schemas && !IsManual(name)
    ensures
      var d := s.(db := s.db.(schemas := s.db.schemas[name := false]));
      && Sound(d) && Constraints(d.db) && ActiveComplete(d.db, name) && (forall b | b in d.db.builds :: d.db.builds[b].schema != name)
      && Changing(s, d, name) && name in d.db.schemas
  {
    hide FitsRuntime, UniqueBuilds, UniquePorts, UniqueContainers, PortsInRange, Consistent;
    var d := s.(db := s.db.(schemas := s.db.schemas[name := false]));
    forall c | Tracked(s.db, c) ensures Tracked(d.db, c) {
      if Owned(s.db, c) { assert Owned(d.db, c); }
    }
    SchemasDoNotMatter(s, d.db.schemas);
  }

  lemma SchemasDoNotMatter(s: World, schemas: map<string, bool>)
    ensures Consistent(s) ==> Consistent(s.(db := s.db.(schemas := schemas)))
  {
    hide Consistent;
    if Consistent(s) { LessIsConsistent(s, s.(db := s.db.(schemas := schemas))); }
  }

  lemma UnrecordedIsSound(s: World, name: string)
    requires Sound(s)
    ensures
      var d := s.(db := s.db.(schemas := s.db.schemas - {name}));
      Sound(d) && Constraints(d.db)
  {
    hide FitsRuntime, UniqueBuilds, UniquePorts, UniqueContainers, PortsInRange;
    var d := s.(db := s.db.(schemas := s.db.schemas - {name}));
    forall c | Tracked(s.db, c) ensures Tracked(d.db, c) {
      if Owned(s.db, c) { assert Owned(d.db, c); }
    }
  }

  /** With no build left, the record of a new schema can go. */
  lemma UnrecordedChanges(s: World, w: World, name: string)
    requires Changing(s, w, name) && name !in s.db.schemas && (forall b | b in w.db.builds :: w.db.builds[b].schema != name)
    ensures
      var d := w.(db := w.db.(schemas := w.db.schemas - {name}));
      Changing(s, d, name) && Constraints(d.db) && d.db.schemas == s.db.schemas
  {
    hide Sound, Consistent, Constraints;
    UnrecordedIsSound(w, name);
    SchemasDoNotMatter(w, w.db.schemas - {name});
    assert s.db.schemas - {name} == s.db.schemas;
    assert s.db.schemas[name := false] - {name} == s.db.schemas;
  }

  lemma AfterConvergence(n: World, w: World, def: Schema, r: ConvergeResult)
    requires Sound(n) && (r.UnknownSchema? ==> w == n)
    requires (r.NotActivated? ==> Early(n, w, def.name)) && (r.ActivatedAs? ==> Late(n, w, def))
    ensures Sound(w) && w.db.schemas == n.db.schemas
    ensures r.NotActivated? && (forall b | b in n.db.builds :: n.db.builds[b].schema != def.name) ==>
      forall b | b in w.db.builds && w.db.builds[b].schema == def.name :: w.db.builds[b].instanceCount == LOCKED
  {
    hide Sound, Consistent;
  }

  /** Removing locked builds. */
  lemma CleaningChanges(s: World, w: World, name: string)
    requires Changing(s, w, name) && name in w.db.schemas
    ensures forall d :: Sound(d) && CleanedUp(w, d, name) ==> Changing(s, d, name)
  {
    hide Sound, Consistent, OthersKept, Pruned, Changing;
    forall d | Sound(d) && CleanedUp(w, d, name) ensures Changing(s, d, name) {
      LockedAreOfSchema(w.db, name);
      CleanedIsPruned(w, name);
      PrunedMore(w, d, InstancesOfBuilds(w.db, LockedBuilds(w.db, name)), LockedBuilds(w.db, name), InstancesOfSchema(w.db, name), LockedBuilds(w.db, name));
      PrunedChanges(s, w, d, name);
    }
  }

  lemma PrunedChanges(s: World, w: World, d: World, name: string)
    requires Changing(s, w, name) && name in w.db.schemas && Sound(d)
    requires Pruned(w, d, InstancesOfSchema(w.db, name), LockedBuilds(w.db, name))
    ensures Changing(s, d, name)
  {
    hide Sound, Consistent, OthersKept, OwnedBy;
    OthersPruned(s, w, d, name);
    if Consistent(w) { PrunedConsistent(w, d, InstancesOfSchema(w.db, name), LockedBuilds(w.db, name)); }
  }

  lemma NoBuildsLeft(w: World, d: World, name: string)
    requires CleanedUp(w, d, name) && forall b | b in LockedBuilds(w.db, name) :: b !in d.db.builds
    requires !exists b :: b in w.db.builds && w.db.builds[b].schema == name && w.db.builds[b].instanceCount != LOCKED
    ensures forall b | b in d.db.builds :: d.db.builds[b].schema != name
    ensures d.db.schemas == w.db.schemas
  {
    hide OwnedBy;
    forall b | b in d.db.builds
      ensures d.db.builds[b].schema != name
    {
      assert b in w.db.builds && d.db.builds[b] == w.db.builds[b];
      assert b !in LockedBuilds(w.db, name);
    }
  }
}
