/** Comparing what is on disk with what is on record (api.go). */
module Detection {
  import opened Store

  /** `failed` are challenges whose full record could not be read. */
  datatype ChallengeUpdates = ChallengeUpdates(
    added: set<ChallengeId>, refreshed: set<ChallengeId>, updated: set<ChallengeId>,
    removed: set<ChallengeId>, unmodified: set<ChallengeId>, failed: set<ChallengeId>, errors: bool)

  const NO_UPDATES := ChallengeUpdates({}, {}, {}, {}, {}, {}, false)

  predicate IsHacksport(challengeType: string) {
    challengeType == "hacksport" || challengeType == "hacksport-ubuntu26" || challengeType == "hacksport-legacy"
  }

  /** Type and options are those on record, and metadata is no input to the build. */
  ghost predicate MetadataOnly(curr: Challenge, found: Challenge) {
    && found.challengeType == curr.challengeType && found.options == curr.options
    && found.challengeType !in {"hacksport", "hacksport-ubuntu26", "hacksport-legacy"}
  }

  /** Whether a metadata-only update will do; not when the record cannot be read. */
  method SafeToRefresh(m: Manager, curr: Challenge, found: Challenge) returns (safe: bool)
    ensures safe ==> MetadataOnly(curr, found)
    ensures m.reliable ==> safe == MetadataOnly(curr, found)
  {
    var read := m.Query();
    if !read {
      return false;
    }
    var sameType := curr.challengeType == found.challengeType;
    var sameOptions := curr.options == found.options;
    safe := sameType && sameOptions && !IsHacksport(found.challengeType);
  }

  /** Every challenge on disk or on record is in exactly one class, except records whose
      directory was not searched. */
  ghost predicate Classified(db: Db, inventory: map<ChallengeId, Challenge>, searched: set<ChallengeId>, cu: ChallengeUpdates) {
    && (forall k :: k in cu.added <==> k in inventory && k !in db.challenges)
    && (forall k :: k in cu.removed <==> k in db.challenges && k !in inventory && k in searched)
    && (forall k :: k in cu.unmodified + cu.refreshed + cu.updated + cu.failed <==> k in db.challenges && k in inventory)
    && cu.unmodified !! cu.refreshed !! cu.updated !! cu.failed
  }

  datatype Class = Unmodified | Refreshed | Updated

  /** What is compared of a challenge: both digests, solve script and seccomp profile. */
  ghost function Compared(c: Challenge): (string, string, bool, string) {
    (c.sourceDigest, c.metadataDigest, c.solveScript, c.seccomp)
  }

  /** On record with both digests, and on disk just so. */
  ghost predicate Current(curr: Challenge, found: Challenge) {
    curr.sourceDigest != "" && curr.metadataDigest != "" && Compared(curr) == Compared(found)
  }

  /** A change that calls for a rebuild is never passed over or taken for metadata only, and
      nothing is rebuilt that is as it was. */
  ghost predicate Fits(curr: Challenge, found: Challenge, class_: Class) {
    match class_
    case Unmodified => Current(curr, found)
    case Refreshed => !Current(curr, found) && Refreshable(curr, found)
    case Updated => !Current(curr, found)
  }

  ghost predicate Justified(db: Db, inventory: map<ChallengeId, Challenge>, cu: ChallengeUpdates) {
    && (forall k | k in cu.unmodified :: k in db.challenges && k in inventory && Fits(db.challenges[k], inventory[k], Unmodified))
    && (forall k | k in cu.refreshed :: k in db.challenges && k in inventory && Fits(db.challenges[k], inventory[k], Refreshed))
    && (forall k | k in cu.updated :: k in db.challenges && k in inventory && Fits(db.challenges[k], inventory[k], Updated))
    && (forall k | k in cu.added :: k in inventory && k !in db.challenges)
    && (forall k | k in cu.removed :: k in db.challenges && k !in inventory)
    && cu.unmodified !! cu.refreshed !! cu.updated
  }

  /** A metadata-only change will do. */
  ghost predicate Refreshable(curr: Challenge, found: Challenge) {
    curr.sourceDigest != "" && found.sourceDigest == curr.sourceDigest && found.seccomp == curr.seccomp && MetadataOnly(curr, found)
  }

  /** When every record can be read, only what a metadata-only change cannot do is rebuilt. */
  ghost predicate RebuildsOnlyWhenNeeded(db: Db, inventory: map<ChallengeId, Challenge>, cu: ChallengeUpdates) {
    forall k | k in cu.updated && k in db.challenges && k in inventory :: !Refreshable(db.challenges[k], inventory[k])
  }

  method Classify(m: Manager, curr: Challenge, found: Challenge) returns (class_: Class)
    ensures Fits(curr, found, class_)
    ensures m.reliable && class_.Updated? ==> !Refreshable(curr, found)
  {
    var sourceChanged := curr.sourceDigest == "" || curr.sourceDigest != found.sourceDigest;
    var metadataChanged := curr.metadataDigest == "" || curr.metadataDigest != found.metadataDigest;
    var solveScriptChanged := curr.solveScript != found.solveScript;
    var seccompChanged := curr.seccomp != found.seccomp;
    if !sourceChanged && !metadataChanged && !solveScriptChanged && !seccompChanged {
      return Unmodified;
    }
    var safe := false;
    if !sourceChanged && !seccompChanged {
      safe := SafeToRefresh(m, curr, found);
    }
    class_ := if safe then Refreshed else Updated;
  }

  function Add(cu: ChallengeUpdates, k: ChallengeId, class_: Class): ChallengeUpdates {
    match class_
    case Unmodified => cu.(unmodified := cu.unmodified + {k})
    case Refreshed => cu.(refreshed := cu.refreshed + {k})
    case Updated => cu.(updated := cu.updated + {k})
  }

  /** The records in `seen` have been sorted. */
  ghost predicate Sorted(inventory: map<ChallengeId, Challenge>, searched: set<ChallengeId>, seen: set<ChallengeId>, cu: ChallengeUpdates) {
    && cu.added == {} && (cu.errors <==> cu.failed != {})
    && (forall k :: k in cu.removed <==> k in seen && k !in inventory && k in searched)
    && (forall k :: k in cu.unmodified + cu.refreshed + cu.updated + cu.failed <==> k in seen && k in inventory)
    && cu.unmodified !! cu.refreshed !! cu.updated !! cu.failed
  }

  lemma SortedOne(inventory: map<ChallengeId, Challenge>, searched: set<ChallengeId>, seen: set<ChallengeId>, cu: ChallengeUpdates, k: ChallengeId)
    requires Sorted(inventory, searched, seen, cu) && k !in seen
    ensures k in inventory ==> forall class_: Class :: Sorted(inventory, searched, seen + {k}, Add(cu, k, class_))
    ensures k in inventory ==> Sorted(inventory, searched, seen + {k}, cu.(failed := cu.failed + {k}, errors := true))
    ensures k !in inventory ==> Sorted(inventory, searched, seen + {k}, if k in searched then cu.(removed := cu.removed + {k}) else cu)
  {
  }

  lemma JustifiedOne(db: Db, inventory: map<ChallengeId, Challenge>, cu: ChallengeUpdates, k: ChallengeId, class_: Class)
    requires Justified(db, inventory, cu) && k in db.challenges && k in inventory && Fits(db.challenges[k], inventory[k], class_)
    requires k !in cu.unmodified + cu.refreshed + cu.updated
    ensures Justified(db, inventory, Add(cu, k, class_))
    ensures RebuildsOnlyWhenNeeded(db, inventory, cu) && (class_.Updated? ==> !Refreshable(db.challenges[k], inventory[k])) ==>
      RebuildsOnlyWhenNeeded(db, inventory, Add(cu, k, class_))
  {
    hide Fits, Refreshable;
  }

  /** Records without a class, and what is new on disk. */
  lemma JustifiedRest(db: Db, inventory: map<ChallengeId, Challenge>, cu: ChallengeUpdates, k: ChallengeId)
    requires Justified(db, inventory, cu)
    ensures k in db.challenges && k !in inventory ==> Justified(db, inventory, cu.(removed := cu.removed + {k}))
    ensures forall failed, errors :: Justified(db, inventory, cu.(failed := failed, errors := errors))
    ensures forall errors :: Justified(db, inventory, cu.(added := inventory.Keys - db.challenges.Keys, errors := errors))
  {
    hide Fits;
  }

  lemma NeededRest(db: Db, inventory: map<ChallengeId, Challenge>, cu: ChallengeUpdates)
    requires RebuildsOnlyWhenNeeded(db, inventory, cu)
    ensures forall removed, errors, added :: RebuildsOnlyWhenNeeded(db, inventory, cu.(removed := removed, errors := errors, added := added))
  {
    hide Refreshable;
  }

  lemma NothingJustified(db: Db, inventory: map<ChallengeId, Challenge>)
    ensures Justified(db, inventory, NO_UPDATES) && RebuildsOnlyWhenNeeded(db, inventory, NO_UPDATES)
    ensures Justified(db, inventory, NO_UPDATES.(errors := true))
  {
  }

  /** A record met for the first time has no class yet. */
  lemma NotYetSorted(inventory: map<ChallengeId, Challenge>, searched: set<ChallengeId>, seen: set<ChallengeId>, cu: ChallengeUpdates, k: ChallengeId)
    requires Sorted(inventory, searched, seen, cu) && k !in seen
    ensures k !in cu.unmodified + cu.refreshed + cu.updated
  {
    assert k !in cu.unmodified + cu.refreshed + cu.updated + cu.failed;
  }

  method DetectChanges(m: Manager, inventory: map<ChallengeId, Challenge>, inventoryErrors: bool, searched: set<ChallengeId>)
    returns (cu: ChallengeUpdates)
    ensures !cu.errors ==> !inventoryErrors && cu.failed == {} && Classified(m.world.db, inventory, searched, cu)
    ensures Justified(m.world.db, inventory, cu)
    ensures m.reliable ==> RebuildsOnlyWhenNeeded(m.world.db, inventory, cu)
    ensures m.reliable && !inventoryErrors ==> !cu.errors
  {
    hide Fits, Refreshable, Sorted, Add, Justified, RebuildsOnlyWhenNeeded, Classified;
    var db := m.world.db;
    NothingJustified(db, inventory);
    var listed := m.Query();
    if !listed {
      return NO_UPDATES.(errors := true);
    }
    cu := NO_UPDATES;
    var challenges, records := inventory.Keys, db.challenges.Keys;
    NothingSorted(inventory, searched);
    assert db.challenges.Keys - records == {};
    while records != {}
      invariant records <= db.challenges.Keys
      invariant challenges == inventory.Keys - (db.challenges.Keys - records)
      invariant Sorted(inventory, searched, db.challenges.Keys - records, cu) && Justified(db, inventory, cu)
      invariant m.reliable ==> RebuildsOnlyWhenNeeded(db, inventory, cu) && !cu.errors
    {
      var k :| k in records;
      SortedOne(inventory, searched, db.challenges.Keys - records, cu, k);
      NotYetSorted(inventory, searched, db.challenges.Keys - records, cu, k);
      JustifiedRest(db, inventory, cu, k);
      if m.reliable { NeededRest(db, inventory, cu); }
      assert db.challenges.Keys - (records - {k}) == (db.challenges.Keys - records) + {k};
      records := records - {k};
      if k !in challenges {
        if k in searched {
          cu := cu.(removed := cu.removed + {k});
        }
        continue;
      }
      challenges := challenges - {k};
      var read := m.Query();
      if !read {
        cu := cu.(failed := cu.failed + {k}, errors := true);
        continue;
      }
      var class_ := Classify(m, db.challenges[k], inventory[k]);
      JustifiedOne(db, inventory, cu, k, class_);
      AddFails(cu, k, class_);
      cu := Add(cu, k, class_);
    }
    assert db.challenges.Keys - records == db.challenges.Keys;
    AllSorted(db, inventory, searched, cu);
    JustifiedRest(db, inventory, cu, "");
    if m.reliable { NeededRest(db, inventory, cu); }
    ClassifiedErrors(db, inventory, searched, cu.(added := inventory.Keys - db.challenges.Keys));
    cu := cu.(added := challenges, errors := cu.errors || inventoryErrors);
  }

  lemma NothingSorted(inventory: map<ChallengeId, Challenge>, searched: set<ChallengeId>)
    ensures Sorted(inventory, searched, {}, NO_UPDATES)
  {
  }

  lemma AddFails(cu: ChallengeUpdates, k: ChallengeId, class_: Class)
    ensures Add(cu, k, class_).errors == cu.errors
  {
  }

  lemma ClassifiedErrors(db: Db, inventory: map<ChallengeId, Challenge>, searched: set<ChallengeId>, cu: ChallengeUpdates)
    ensures forall errors :: Classified(db, inventory, searched, cu) ==> Classified(db, inventory, searched, cu.(errors := errors))
  {
  }

  lemma AllSorted(db: Db, inventory: map<ChallengeId, Challenge>, searched: set<ChallengeId>, cu: ChallengeUpdates)
    requires Sorted(inventory, searched, db.challenges.Keys, cu)
    ensures !cu.errors ==> cu.failed == {}
    ensures Classified(db, inventory, searched, cu.(added := inventory.Keys - db.challenges.Keys))
  {
  }

  /** The marker of an unfinished update is never mistaken for a current record: as long as
      the challenge is on disk, only another rebuild can follow. */
  lemma MarkedIsUpdated(db: Db, inventory: map<ChallengeId, Challenge>, searched: set<ChallengeId>, cu: ChallengeUpdates, k: ChallengeId)
    requires Justified(db, inventory, cu) && k in db.challenges && k in inventory && db.challenges[k].sourceDigest == ""
    ensures k !in cu.unmodified && k !in cu.refreshed
    ensures Classified(db, inventory, searched, cu) && cu.failed == {} ==> k in cu.updated
  {
    assert Classified(db, inventory, searched, cu) ==> k in cu.unmodified + cu.refreshed + cu.updated + cu.failed;
  }
}
