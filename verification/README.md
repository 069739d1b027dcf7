# cmgr: keeping tables, containers and artifacts in step

cmgr manages challenges whose builds and instances live in three places at once: SQLite tables,
Docker objects (containers, image tags, ports) and artifact files. None of the three can be
changed together with another, any call can fail, and a process can die between any two calls.
This project models the protocols that keep the three in step, and proves what they promise.

## How it is modelled

- `Store.World` is everything that outlives a process: tables, containers, running set, image
  tags, artifact files. Rows that SQLite removes by cascade are nested in the row that owns them.
  A transaction is a function from tables to tables; it takes effect only if `Constraints`
  (unique indexes, primary keys, foreign keys) holds of the result.
- `Store.Manager` holds the world. Each of its methods is one call into SQLite, Docker or the file
  system, whose outcome is arbitrary within what that call can do; a start, stop, removal or moved
  tag that reports an error may still have taken effect. The ghost field `crashPoints` collects
  every world a crash could leave behind, so a statement about all of `crashPoints` is a statement
  about a crash at any point of any run.
- A container asks Docker for fixed host ports, or leaves the choice to Docker, which picks anew at
  each start; `World` knows what every running container holds. Where a port range is set, all
  containers that are started ask for every port they publish (`Pinned`).
- On a `reliable` manager calls do not fail without a visible reason (a missing image, a port in
  use, a constraint). "With no faults" below means such a manager. Where containers have to be
  restarted it also means that those to restart are pinned, and for an undo that the world is
  `Quiet`: only owned containers run, on the ports on record. Recovery leaves a quiet world, and
  every undo step keeps it quiet.
- On a `fortunate` manager, moreover, all that lies with others goes well: files can be read, images
  build and yield a flag, containers stay up and report their ports, and Docker picks unused ports
  as long as there are any. This is "with luck" below. What is promised then is success: an update
  completes, a definition takes effect, a command does what it is for, on a condition that speaks of
  the world before it only. It is a matter of images, records and ports: there is a host port for
  every name that had none. Where a port range is set, an instance may have one such name, since
  two can be drawn the same port. A ghost result `refused` tells whether a start without such a
  promise has failed; where none has, everything succeeds as well.
- Images and containers carry the source digest they were built from. No operation reads it; it
  is there to say which generation something belongs to. An image also determines the files that
  are read from it: flag, lookups, tweaks and archive.
- Methods with state change the manager step by step as the original does, with the same branches,
  order and error paths. Locks, concurrent starts and ownership under interleaving are transition
  systems with an inductive invariant over runs of any length and any number of processes.

The invariants, in the order in which they build on each other:

- `Safety.Sound`: constraints hold, ownership and retirement of containers exclude each other,
  running containers are on record, and the host ports that an instance's containers ask for are
  those it has on record.
- `Safety.Safe(base, now, challenge)`: between any two calls of an update, the world is sound and
  differs from `base` only where that update may differ. Rows, instances, tags, artifacts and
  running containers of other challenges are as they were. Every instance of the challenge owns
  all it owned in `base` or all of its candidate: one new container for each image of the new
  record, from tags of one generation (`Whole`).
- `Safety.Orderly`: sound, every build has a schema on record, and every active build of a managed
  schema is finished. It holds between any two operations and at every crash point.
- `Generations.Consistent`: a challenge record with a source digest is true of all its builds:
  every finished one, its images and its instances' containers are of that generation. The empty
  digest is the mark of an unfinished update and claims nothing.
- `Cutover.Same(s, d)`: equal but for ids used up and for containers that an undo has restarted:
  tables, containers, tags and artifacts are exactly as before, and so are the host ports of all
  pinned containers (`SameHostPorts`). `AsBefore(s, d)` allows one container more to be down. The
  undo theorems end in one of the two.

## Modules

| file | what it is about |
|---|---|
| Store, Ports, PortChoice, Instances, Containers | the world and its calls; port choice; the row swap; starting containers |
| Placement, Moving, Staffing | when there are ports for one start; for moving all instances; for all that a definition lacks |
| Safety, Cutover, Promotion, Building | invariants; one instance's cutover; tags and artifacts; one build |
| Generations, BuildUpdates, Updates | generations; one build's update and its undo; the whole update |
| Detection, Lifecycle, Recovery | what changed on disk; start and stop; startup recovery |
| Staging, Schemas, Operations | staging and generating builds; schema convergence; sequences of operations |
| OperationLock, KeyedLocks, Ownership, PortAllocation | interleavings |
| AllocationRuns | starts, stops and restarts as runs of PortAllocation |
| MigrationData, Migration | what the migration does to rows; latch, backups and versions over startups |
| Decimals, HashFrames, StagedNames | printed numbers; the hashed stream; names of staged resources |

## Main results

1. **Updates.** At every crash point of every update, tables and Docker agree, nothing of another
   challenge has changed, no instance is half moved, and records are true of their generation or
   marked unfinished (`UpdateChallenge`, `SafeIsConsistent`). An update that fails and whose undo
   calls succeed leaves the world as it was, over any number of builds and instances
   (`RebuildAll`, `RollbackUpdates`; the two exceptions are below); with no faults every undo call
   does succeed. The undo must run in reverse (`ForwardUndoCollides`). One that completes leaves
   every instance running the new generation, with exactly the names of the new record, on its old
   ports, and nothing of the old one (`CompletedRuns`). And with luck it does complete, over any
   number of challenges, builds and instances, where there are ports for their new names
   (`UpdateChallenges`).
2. **Recovery.** From any sound world, hence from any crash, recovery without an error leaves nothing
   retired, every instance whole, and fixed-count builds that lost an instance at their targets. After
   a crash in an update every instance that was whole before runs exactly its old containers or exactly
   its whole candidate; only where the new record asks for another number of containers can it
   have been removed (`CrashedCutoverRecovers`, `OtherSetIsGone`). With luck there is no error where
   what is intact leaves ports for the replacements (`RetryRetiredResources`).
3. **Schemas.** Convergence without an error reaches exactly the definition from any orderly world;
   before activation it never takes anything away; and with no faults it takes effect whenever its
   builds are finished and staffed, or else, with luck, can be (`ConvergeSchema`).
4. **Operations.** Any sequence of operations, with a crash anywhere, keeps the world orderly, and
   consistent as long as no undo call failed; every answer is true of the worlds before and after,
   and what is feasible succeeds (`Serve`). An update without errors leaves nothing to do
   (`NothingLeftToUpdate`). Since startup asks for nothing but an orderly world, runs, crashes and
   restarts can follow one another.
5. **Interleavings.** For the operation lock: exclusion, draining, an end to every attempt. One lock
   object per key in the keyed maps. One owner per container and one holder per port on every run;
   nothing lost on every careful one. The starts, stops and restarts of `Containers` are runs of the
   port protocol, at every crash point (`AllocationRuns`).
6. **Migration.** The data migration succeeds exactly when no two rows conflict, and keeps all rows,
   each with the columns it had;
   the database opens exactly when moreover its references and remaining indexes are in order; over
   any history of startups and crashes the original is in place or backed up, and a half-done
   migration is latched.
7. **Encodings.** The hashed stream determines the walk; staged names give back their build.

Six properties one would expect do not hold of the code as it is. Each is stated with the exact
condition under which it does, and with a case where it does not.

- *No container is lost without a fault.* A stop that reads an instance while its start is under way
  deletes the row when the start has handed it its containers; a stop or failed start that is late
  does the same to a new instance that got the id of one that is gone. Nothing is lost on runs
  without such a meeting, and every such meeting can lose a container (`NothingLost`,
  `CarelessLoses`, `StopBesideStartLoses`). Besides, a container is lost when its thread dies, or can
  neither record nor remove it, right after its creation, and only then (`LeaksAreGivenUp`).
- *One start asks for distinct ports.* It does unless two of its names had no port before and a port
  is free or becomes so; then some random numbers give both the same, and Docker refuses
  (`AsksTwiceIff`).
- *A failed start gives its ports back before the port lock.* A comment says so
  (`cmgr/docker.go`, line 1335), but the `err` that the deferred clean-up looks at is the one declared
  beside the lock (line 1329), which is never the error returned. The containers stay until the
  caller removes them, and until then another start can select a port they hold and be refused
  (`RefusedUntilCleared`). A start whose new names have different ports is refused if and only if
  this is so (`BoundIff`); one that takes the lock when nothing is left never is
  (`BoundWhereNothingIsLeft`).
- *An undo in which no call fails is exact.* A container whose stop was reported to fail is not
  started again; tables and running set are exact if and only if that stop had no effect
  (`ExactUnlessStopped`).
- *A container that is paused and resumed has the ports on record.* Without a port range Docker may
  pick others for it. It always has them if and only if it asks for all the ports it publishes
  (`RestartKeepsPortsIff`).
- *What migrates can be opened.* A row that names one that is not there passes both migrations and
  fails the check behind them (`OrphanIsRefused`; `OldestOpenIff` for the condition).

## Model

| member | source | states |
|---|---|---|
| Store.Manager.Commit | cmgr/database.go:426-447 | A transaction takes effect as a whole or not at all; it can take effect only if every unique index, primary key and foreign key on the modelled columns then holds, and on a reliable manager it does take effect whenever they hold. |
| Ports.GetFreePort | cmgr/docker.go:151-180 | The sweep from a random start that wraps round the range: what it returns is determined by the random number; it is a port in range that no instance records, and it gives up exactly when every port of the range is recorded. |
| Ports.AnyFreePortCanBeDrawn | cmgr/docker.go:168-180 | Every free port of the range is found from some random number. |
| PortChoice.AsksTwiceIff | cmgr/docker.go:1361-1401 | A start can ask for one host port twice, for some random numbers, if and only if two of the names it publishes had no port before and the range has a port that does not stay on record while it starts: a free one, or one whose instance is stopped meanwhile. |
| PortChoice.KeptAreApart | cmgr/docker.go:1677-1692 | A port that a name keeps is never the one another name of the start gets. |
| Instances.ReplaceInstanceRuntimeMetadata | cmgr/database_instances.go:62-124 | One transaction hands an instance its new containers and ports, retires the ones it no longer owns and un-retires the ones it now owns; on failure nothing changes. |
| Instances.FinalizeInstance | cmgr/database_instances.go:28-57 | Adds ports and containers to what the instance records and takes the containers off the retired list, all or nothing; an instance that is gone can be given nothing. |
| Instances.ReplaceKeepsOwnership | cmgr/database_instances.go:62-124 | The swap keeps ownership and retirement exclusive: no container becomes both. |
| Instances.ReplaceThenRestore | cmgr/database_instances.go:62-124 | Swapping to new containers and back restores the tables exactly, apart from the new containers now being retired. |
| Containers.RemoveRetiredContainerIDs | cmgr/docker.go:1852-1869 | Removes only the given containers and forgets only those that are gone; on success all of them are gone and none is retired; with no faults it succeeds. The same bound holds at every crash point. |
| Containers.PauseContainerProcesses | cmgr/docker.go:1814-1830 | Reports which containers are known to have stopped, all of the given ones on success; at most one more is down, whose stop took effect although it was reported to fail; nothing else changes. |
| Containers.ResumeContainerProcesses | cmgr/docker.go:1832-1850 | Starts only the given containers; on success all of them run; with no faults it succeeds when they exist, their ports are free of others and of each other, and they ask for all they publish. |
| Containers.SelectHostPorts | cmgr/docker.go:1677-1692 | Every published name keeps its previous port or gets the one the sweep from its random number finds, in range and unrecorded; no range configured means no choice; with no faults it fails exactly when a name without a previous port finds the range used up, or a previous port is none. |
| Containers.LaunchImages | cmgr/docker.go:1368-1616 | At every crash point each container created is retired except possibly the latest, and whatever has come to run publishes ports the instance had or nobody had on record, one container for each name, which Docker found free; on success the containers are the instance's images in order, running, with all their names published and with the ports Docker reports for them. With luck and no faults it succeeds wherever images and known names are there and there is a port for every new name. |
| Containers.StartContainers | cmgr/docker.go:1315-1626 | On success every image but the builder's runs as exactly one new container made from its canonical tag, the published names are exactly those of the images, ports previously recorded are kept, no host port is asked for twice, the rows say what Docker has bound, and tables, containers and running set are otherwise untouched. On failure what it has created is still there, possibly running, and nothing else has changed. With luck and no faults it succeeds under the condition of the row above. In any case, and at every crash point, what has come to run is on chosen ports. |
| Containers.EveryNameOnce | cmgr/docker.go:1018-1035 | For a record that fits the tables each published name is exposed by the image of its own host and by no other image. |
| Containers.PublishedOf | cmgr/docker.go:1018-1035 | So the instances of its builds publish exactly the names of hosts other than the builder. |
| Containers.RunsGeneration | cmgr/docker.go:1403-1407 | An instance started from tags of one generation runs containers of that generation. |
| Containers.GrownThenReaped | cmgr/docker.go:1762-1771 | Creating containers and removing them all again leaves the world as it was, apart from ids used up. |
| Containers.StartableStep | cmgr/docker.go:1832-1850 | A set of containers whose ports are free of others and of each other can be started in any order: starting one leaves the rest startable. |
| Safety.SafeReaped | cmgr/docker.go:1852-1869 | Removing containers that no instance owns is safe at every point in an update. |
| Safety.SafeReplaced | cmgr/database_instances.go:62-124 | Handing an instance its previous containers or new ones is safe at every point in an update. |
| Safety.SafeDeployed | cmgr/docker.go:1719-1784 | Starting candidates and handing them over is safe, and everything created stays on record. |
| Safety.BaseRuntimeFits | cmgr/docker.go:1786-1806 | As long as nothing that existed before the update has been removed, any instance can be given back what it owned. |
| Safety.WholeStays | cmgr/docker.go:1719-1810 | No step but a swap of the row or of the build record makes an instance of the challenge own part of a set: each owns all it owned before the update, or one new container for every image of the new record, made from tags of one generation. |
| Safety.WholeReplaced | cmgr/database_instances.go:62-124 | The swap moves an instance from the one whole set to the other. |
| Cutover.PrepareInstanceCutover | cmgr/docker.go:1719-1784 | Success: the instance owns one new running container per image with its old ports, and its old containers are retired but still there. Failure with an undo in which no call fails: everything as before, except that a container may be down whose stop was reported to fail but took effect; exactly as before if and only if there is none. With no faults there is none and the undo succeeds; with luck besides, the cutover succeeds in a quiet world if the images are there and there is a port for every new name. At every crash point the instance owns its whole old set or its whole candidate. |
| Moving.MovesOne | cmgr/database_challenges.go:454-474 | Where all instances can be moved, and the tags are those of the new build, each can be moved now. |
| Moving.MovedOne | cmgr/docker.go:1719-1784 | Moving an instance takes one spare port for each of its new names and no more, and the others can still be moved. |
| Cutover.ExactUnlessStopped | cmgr/docker.go:1816-1830 | The way back is exact in tables and running set if and only if no stop that was reported to fail took effect; for the host ports see the next row. |
| Cutover.RestartKeepsPortsIff | cmgr/docker.go:1832-1850 | Whatever Docker picks, a container that is started again holds the ports on record if and only if it asks for all the ports it publishes, which can be seen before the update and is so whenever a port range was set at its start. |
| Cutover.SameHostPorts | cmgr/docker.go:1786-1806 | Where an undo is exact, containers that ask for all their ports hold the same ones as before, restarted or not. |
| Cutover.RollbackInstanceCutover | cmgr/docker.go:1786-1806 | Undoing a cutover gives the instance its old containers, running, removes the candidates and restores everything else exactly; it cannot fail without a fault; every crash point is safe. |
| Cutover.FinishInstanceCutover | cmgr/docker.go:1808-1810 | Removes old containers only; on success they are gone from Docker and from the retired list. |
| Cutover.OneOwnerPerPort | cmgr/database.go:163-166 | If the port an owned container asks for is on record for a name that an owned container publishes, the two are one name of one container. |
| Cutover.OwnedAreStartable | cmgr/docker.go:1832-1850 | While only owned containers run, each on the ports on record, those of an instance that ask for all they publish can always be started again. |
| BuildUpdates.ForwardUndoCollides | cmgr/database_challenges.go:487-502 | Two cutovers of which the second took a port the first one freed: undoing them first-to-last breaks the unique port index, last-to-first restores the instances exactly. |
| Promotion.SnapshotTags | cmgr/docker.go:642-655 | Records, for every host, the image its canonical name has or that it has none. |
| Promotion.PublishTags | cmgr/docker.go:657-678 | On success every host's canonical name is the staged image; on failure only canonical names of the build may have moved, each to its staged image; with no faults it succeeds when all staged names are there. |
| Promotion.PromoteArtifact | cmgr/docker.go:680-728 | Success: the canonical artifact is the staged one, or absent when the build has none, and the previous one is in the backup. Failure with clean undo: tags and artifacts as before the build. With no faults it succeeds unless the staged archive is missing. |
| Promotion.PromoteStagedBuild | cmgr/docker.go:633-729 | Success publishes every tag and the artifact; at whichever step it fails, a clean undo leaves every canonical tag and artifact, including absent ones, as before; with no faults the undo is clean, and it succeeds when everything staged is there. |
| Promotion.RollbackStagedBuild | cmgr/docker.go:731-765 | From any state a partial or full promotion can leave, a successful rollback restores tags and artifacts exactly apart from the staged names; with no faults it succeeds. |
| Promotion.ArtifactsBack | cmgr/docker.go:750-763 | Removing the installed artifact and renaming the backup back restores every artifact but the staged one, at whichever step promotion stopped. |
| Promotion.FinishStagedBuild | cmgr/docker.go:767-783 | Changes no canonical tag and no file but the backup; on success staged tags and backup are gone. |
| Promotion.DiscardStagedBuild | cmgr/docker.go:934-967 | After a staged build that was not promoted, success leaves tags and artifacts exactly as before the build. |
| Building.BuildImages | cmgr/docker.go:1018-1076 | On success there is an image of the built source for every host under its staged or canonical name; each is listed with exactly the names the port map gives to its host, in order; the output is to be read from the builder's image if there is one, else from the challenge's; only those names change. With luck and no faults it succeeds. |
| Building.ReadOutput | cmgr/docker.go:1084-1239 | The container the output is read from is on record before it is used and removed afterwards; what is read are the files of the image with the given name; it is accepted only with a non-empty flag, and its archive is then in place, or removed again if it is empty. With luck and no faults an image with a flag is always accepted. |
| Building.CopyOutput | cmgr/docker.go:1128-1239 | Touches no table, no tag and no running container while it copies; refuses an empty flag; an archive is put in place, and removed again if there is nothing in it. |
| Building.ExecuteBuild | cmgr/docker.go:993-1263 | On success all images are there and of the source digest on record, the images listed are those of the challenge's hosts and port map, and flag, lookups and archive are those in the image of the builder, or of the challenge where there is no builder; with no faults no container is left behind whether or not the build works, and with luck it works whenever there is such a host; a crash leaves at most one container unrecorded. |
| Building.ImagesShareNoName | cmgr/docker.go:1028-1032 | Images of one build never publish the same name, since every name belongs to one host. |
| BuildUpdates.UpdateBuild | cmgr/database_challenges.go:386-486 | Success: the build is wholly of the new generation (row, every canonical tag, artifact, every container of every instance), all its instances run it on their old ports, other builds are as they were, and the trail needed to undo it is complete. A failure in which no undo call fails: the world is as before the build, but for at most one container whose failed stop took effect, which an instance of this build owns. With no faults it is exactly as before. With luck and no faults it fails only if an instance could not be moved, which cannot be where there are ports for all new names. |
| BuildUpdates.CutOverInstances | cmgr/database_challenges.go:454-484 | Success cuts over every instance of the build, each to one new container per image on the ports it had; otherwise those already cut over are cut back in reverse order, and if no undo call fails the world is as before the build, but for the one container whose failed stop took effect. With no faults it succeeds if no cutover fails, and with luck none does where there are ports for all new names. |
| BuildUpdates.InstallBuild | cmgr/database_challenges.go:443-484 | From promoted tags and artifact: either row and instances follow, or everything, promotion included, is undone, but for the one container whose failed stop took effect. Success is promised as for the cutovers. |
| BuildUpdates.FinalizeBuild | cmgr/database_builds.go:202-269 | Lookups deleted and inserted one by one, then images and their ports: the row holds exactly the given output afterwards, in one transaction that also resets the solve time; a build with two images of one host is refused with nothing changed. |
| BuildUpdates.RollbackCutovers | cmgr/docker.go:561-567 | Cutovers undone last-to-first: if each undo succeeds the world is as before the first one, and with no faults each does succeed. |
| BuildUpdates.RestoreBuildRecord | cmgr/docker.go:573-583 | Puts the previous row back, and then the tables are exactly those from before the build; with no faults it succeeds. |
| BuildUpdates.RollbackBuildUpdate | cmgr/docker.go:561-592 | Instances, row, tags and artifact of a completed build update are all as before it, if no undo call fails; with no faults none does. |
| BuildUpdates.CarriedHalted | cmgr/database_challenges.go:475-493 | Where one container is down, what had been carried out before is still undone step by step: the undo ends in the world before the update with that container down. |
| BuildUpdates.FinishBuildUpdate | cmgr/docker.go:594-631 | Removes only what the update made obsolete; on success old containers, staged tags, backup, and canonical tags of hosts that no longer exist are gone; with no faults it succeeds. |
| BuildUpdates.TrimsKeepsGeneration | cmgr/docker.go:594-631 | Finishing one build takes nothing from any build: each stays wholly of its generation with its instances running. |
| BuildUpdates.GenerationElsewhere | cmgr/database_challenges.go:386-486 | Updating one build leaves every other build of the challenge wholly of the generation it had. |
| Updates.RebuildAll | cmgr/database_challenges.go:384-503 | All builds of the challenge are rebuilt and all instances cut over, or all completed builds are undone in reverse order; if no undo call fails, the world is then the one the rebuild started from, but for at most one container whose failed stop took effect; with no faults exactly that one. With luck and no faults it is the former, for any number of builds, unless an instance could not be moved. |
| Updates.RollbackUpdates | cmgr/database_challenges.go:487-493 | Reverse undo over a whole chain of build updates restores the world before the first, if every undo succeeds; with no faults every undo succeeds. |
| Updates.FinishUpdates | cmgr/database_challenges.go:504-512 | Finishes each build, every build staying of the new generation; on success no old container is left. |
| Updates.CleanupInterruptedBuildResources | cmgr/docker.go:862-932 | Removes only staged tags, staged archives and backups of the given builds; on success none of them is left. |
| Updates.RestoreChallenge | cmgr/database_challenges.go:494-502 | After a failed rebuild the previous record is put back, or the update stays marked unfinished. |
| Updates.UpdateChallenge | cmgr/database_challenges.go:313-538 | The one update of one challenge: refused with nothing changed, record refreshed and nothing else, rolled back with the previous record (and, if no undo call failed, the world as before but for at most one container whose failed stop took effect), left marked, or completed with every build and instance of the new generation and every trace of the old one gone. Other challenges are untouched at every crash point, and every crash point before the end is marked or as before. With no faults a change that fits the tables is not refused (where there is no preflight), nothing is left marked or half undone, a rollback is exact, and a challenge without builds is always brought up to date. With luck besides, so is any other whose instances could all be moved, and they can where only owned containers run and there are ports for all new names. |
| Updates.UpdateChallenges | cmgr/database_challenges.go:309-538 | Each challenge gets its own result, and its record is the new one, the old one or marked as the result says; the world stays orderly, and consistent unless an undo call failed. With luck and no faults all are brought up to date that are on record and fit the tables, unless an instance could not be moved; all can be moved, one challenge after the other, where only owned containers run and there are ports for the new names of all of them together. Refreshing records touches nothing else. |
| Updates.RestMoves | cmgr/database_challenges.go:313-538 | A completed update of one challenge leaves what the others need: ports for their new names, and their containers. |
| Updates.MarkedGeneration | cmgr/database_challenges.go:333-349 | While the challenge carries the unfinished mark no record in the tables says something false about a generation. |
| Updates.SafeIsConsistent | cmgr/database_challenges.go:333-349 | Every world that a crash in an update can leave is sound and consistent: a record with a source digest is true of all its builds and instances. |
| Updates.OutcomeConsistent | cmgr/database_challenges.go:504-535 | So is every world an update ends in, unless an undo call failed. |
| Updates.OthersKeepGeneration | cmgr/database_challenges.go:313-538 | An update of one challenge keeps every other challenge's generation. |
| Updates.RefreshedConsistent | cmgr/database_challenges.go:254-286 | A metadata-only change, which keeps the source digest, keeps every generation. |
| Updates.CompletedRuns | cmgr/database_challenges.go:446-535 | After a completed update every instance the challenge had is still its own, publishes exactly the names the new record gives to hosts other than the builder, each on the host port it had if it had one, runs one running container per image from the new canonical tags, and shares no container with before. |
| Updates.WithinOrderly | cmgr/database_challenges.go:313-538 | Nothing an update does, finished or not, takes away the flag of a finished build or the schema of any build. |
| Detection.Classify | cmgr/api.go:182-204 | Unmodified only if both digests are on record and digests, solve script and seccomp profile are those on disk; Refreshed only if they are not, and source digest, seccomp profile, challenge type and options are those on record and the type is none of the hacksport ones; Updated only if they are not, and, where records can be read, only if a refresh would not do. |
| Detection.SafeToRefresh | cmgr/database.go:1293-1311 | A refresh will do only where type and options are those on record and the type is none of the hacksport ones, and always then when the record can be read. |
| Detection.DetectChanges | cmgr/api.go:152-214 | Without errors every challenge falls into exactly one class; added and removed are exactly what is on one side only (removed only within the searched paths); every class is right in the sense of the row above, even when there are errors; with no faults and no errors in the inventory there are none. |
| Detection.MarkedIsUpdated | cmgr/api.go:182-204 | A record with an empty source digest is never reported Unmodified or Refreshed, and is reported Updated when nothing failed. |
| Generations.KeptGeneration | cmgr/docker.go:1368-1616 | A build keeps its generation when its output and tags stay and each of its instances runs what it ran or containers made from the build's own tags. |
| Generations.KeptConsistent | cmgr/database_challenges.go:333-349 | Consistency is kept by every change that adds no source digest and keeps every build. |
| Generations.LessIsConsistent | cmgr/database_builds.go:157-191 | Consistency is kept by every change that only removes builds, instances, containers or tags. |
| Generations.RunsFromBuild | cmgr/docker.go:1403-1407 | Containers an instance is started with all come from canonical images of its build. |
| Lifecycle.StopContainer | cmgr/docker.go:2132-2171 | A container leaves its instance's row only once it is gone from Docker. |
| Lifecycle.StopContainers | cmgr/docker.go:2132-2171 | Reports exactly which containers are left; on success none is, and the instance owns no port; at every crash point what was taken off the tables is gone from Docker. |
| Lifecycle.StopInstance | cmgr/api.go:472-484 | On success the instance is gone with all its containers and nothing else changed; on failure its row is still there. |
| Lifecycle.NewInstance | cmgr/api.go:389-442 | On success one new instance runs its build; on failure nothing existing changed, a clean undo means no row was added, and with no faults the world is as before. With luck and no faults it succeeds if the canonical images are there, nobody holds a port that is not on record, and there are ports for its names. No crash point loses or stops anything. |
| Lifecycle.AbandonInstance | cmgr/api.go:400-423 | The deferred undo removes what was started and then the row; with no faults the world is as before the start. |
| Lifecycle.FailingIsSound | cmgr/api.go:389-442 | Every stage of a start that is being given up is sound and harms nothing else. |
| Lifecycle.FailingCleared | cmgr/api.go:400-423 | A start whose containers and row have been removed leaves the world as it was, apart from ids used up. |
| Lifecycle.SoundUnwound | cmgr/docker.go:2132-2171 | Every stage of a stop is sound. |
| Lifecycle.PreservesConsistent | cmgr/api.go:389-442 | Starting instances keeps every generation, at every stage. |
| Lifecycle.UnwoundConsistent | cmgr/docker.go:2132-2171 | Stopping containers keeps every generation, at every stage. |
| Lifecycle.GoneConsistent | cmgr/api.go:472-484 | So does removing an instance. |
| Recovery.RetryRetiredResources | cmgr/docker.go:2009-2128 | No error: no container is retired, nor any network but those of instances that were broken; every instance left has one running container per image; each is one that was intact, with the row it had, or belongs to a fixed-count build; every fixed-count build that lost an instance has its target again; and of the containers that were on record only those of surviving instances are left. With no faults: every intact instance runs, every other one is replaced or gone, and only owned containers run, on the ports on record; there is no error if no instance was broken, nor, with luck, where the instances that were not leave ports for the replacements and the images are there; a target that means nothing, of a build that has a broken instance, is always an error, and the only other one. In any case intact instances keep their rows, a removed instance's containers are gone, and every crash point is sound and no less consistent. |
| Recovery.RestartTracked | cmgr/docker.go:2048-2121 | Starts tracked containers only; an instance is called broken only if one of its containers is missing, and always then when there is no error. |
| Recovery.RemoveBrokenInstance | cmgr/docker.go:1883-1923 | All of the instance goes, or, when the removal of one of its containers fails, all of its rows are kept. |
| Recovery.RemoveBroken | cmgr/docker.go:1933-1973 | Removes broken instances only; the builds it lists for restoring all have a fixed count and lost an instance, and without an error every such build is listed; a target that means nothing is always an error, and with no faults the only one. |
| Recovery.RestoreCapacity | cmgr/docker.go:1975-2001 | Adds instances until the target is reached and never beyond it, harming nothing; with no faults it succeeds unless a start fails, and with luck none does where images and ports are there for what is missing. |
| Recovery.ReconcileBrokenInstances | cmgr/docker.go:1925-2003 | No error: the broken instances are gone and every fixed-count build that lost one is at its target at least. With luck and no faults there is none where the remaining rows leave ports for all that is to be replaced, its images are there, and no target is invalid. |
| Recovery.RemoveRetiredNetworks | cmgr/docker.go:2017-2038 | Forgets only networks that are gone, all of them on success. |
| Recovery.CrashedCutoverRecovers | cmgr/docker.go:1719-1810 | A crash anywhere in an update of the challenge, then a recovery that reports no error: an instance that was whole before the update owns exactly its old containers or exactly its whole candidate, all running. It can have been removed only if the new record asks for another number of containers. |
| Recovery.OthersComeThrough | cmgr/docker.go:2009-2128 | Whole instances of other challenges come out of such a recovery as they were, running. |
| Recovery.OtherSetIsGone | cmgr/docker.go:2011-2016 | After a recovery that reports no error every container that was on record before it and still exists belongs to an instance and runs. |
| Recovery.OnRecordAtTheCrash | cmgr/docker.go:1555-1566 | On record at a crash of an update is all that was on record before, and all the update has created but for the latest container. |
| Recovery.RetiredMustGoFirst | cmgr/docker.go:2011-2016 | A sound world in which a tracked container cannot start until a retired one is removed. |
| Recovery.RecoveredIsQuiet | cmgr/docker.go:2009-2128 | After a fault-free recovery only owned containers run, on the ports on record, which is what makes the next update's undo certain to succeed. |
| Staging.StageBuild | cmgr/database_builds.go:114-155 | The key has one row afterwards, the one it had if any; a new row is locked; nothing else changes. |
| Staging.GenerateBuild | cmgr/docker.go:290-369 | On success the row is finished as the challenge record says, with all tags and any archive; a failed build takes at most its own row, tags and archive; with luck and no faults it succeeds. |
| Staging.GenerateBuilds | cmgr/docker.go:245-369 | Refuses, changing nothing, when a build is needed and the record is marked unfinished; builds only if the files on disk are those on record, and then succeeds with luck and no faults; succeeds, changing nothing, when none is needed; never touches a row that has a flag. |
| Staging.StagedConsistent | cmgr/database_builds.go:114-155 | New locked rows keep every generation. |
| Staging.GeneratedConsistent | cmgr/docker.go:245-369 | Builds generated for a record are of that record's generation, so consistency is kept at every stage. |
| Schemas.ValidateFlagFormat | cmgr/api.go:85-101 | Accepts exactly the formats of at most 128 characters with one percent sign, an s behind it. |
| Schemas.ValidateSeeds | cmgr/api.go:103-111 | Accepts exactly the lists without a seed given twice. |
| Schemas.ValidateSchemaDefinition | cmgr/api.go:113-141 | Accepts exactly the definitions with a name that is not empty and not a manual one, an accepted format, no target below -1 and no seed given twice. |
| Schemas.StageGroup | cmgr/api.go:692-704 | One locked or existing row for each seed of the challenge. |
| Schemas.StageSchema | cmgr/api.go:692-711 | On success the staged list covers every (challenge, seed) of the definition with its target and is split by challenge without loss; with no faults it succeeds when all challenges are on record. |
| Schemas.GenerateSchema | cmgr/api.go:712-716 | On success every staged build has a flag; on failure no finished build has lost anything; it succeeds where all have one already, and with luck and no faults where all challenges can be built. |
| Schemas.ScaleUp | cmgr/api.go:718-737 | On success every fixed-count build has at least its target; what it created is listed exactly; nothing existing is touched. With no faults it succeeds unless a start fails; none does where all targets are met, nor, with luck, where images and ports are there for all that is missing. |
| Staffing.CanStart | cmgr/api.go:718-737 | Where all that is missing can be started, the next one can be started now. |
| Staffing.StaffedByOne | cmgr/api.go:389-442 | A start takes one port for each of its names and no more, and the rest can still be started. |
| Schemas.FailBeforeActivation | cmgr/api.go:667-687 | The created instances are stopped; if that works the instances are exactly the original ones, and at every crash point what was there before still is. |
| Schemas.StopCreated | cmgr/api.go:667-687 | Removes created instances only, all of them on success. |
| Schemas.BackToOriginal | cmgr/api.go:667-687 | If everything created is gone and nothing else changed, the instance table is the original one. |
| Schemas.ActiveUntouched | cmgr/api.go:651-737 | Up to activation an active build keeps its row, target included, and all of its instances; this rests on active builds having flags, which is kept. |
| Schemas.ActivateSchemaBuilds | cmgr/database_builds.go:157-191 | One transaction sets exactly the given targets and locks every other build of the schema; a build that is not the schema's refuses it. |
| Schemas.DestroyImages | cmgr/docker.go:2173-2221 | Removes a build with no instances: on success neither its row nor any image name or archive it has on record is left; nothing of any other build is touched; with no faults it succeeds. |
| Schemas.CleanupSchemaResources | cmgr/api.go:809-838 | On success no locked build of the schema is left, nor any of its instances, image names and archives; other builds keep everything; with no faults it succeeds. |
| Schemas.Shrink | cmgr/api.go:752-773 | Takes instances of this build only, stops at the target and never goes below it. |
| Schemas.ScaleDown | cmgr/api.go:752-773 | On success every fixed-count build is exactly at its target; instances of dynamic builds stay. |
| Schemas.SettleSchema | cmgr/api.go:748-775 | From an activated schema: on success it has converged; with no faults it succeeds; the new definition stays in effect at every crash point. |
| Schemas.ConvergeSchema | cmgr/api.go:651-775 | From any sound state: an unknown schema changes nothing; a failure before activation leaves every active build, target and instance of before in place at every step, and exactly the original instances if the clean-up works; success means the build rows are exactly the defined keys with their targets, every fixed count is exact, and every new instance is healthy. With no faults no clean-up fails, and the definition is put into effect whenever its challenges are on record, its builds are finished or can be built, and no start fails; none does where each fixed-count build has its instances already, nor, with luck, where images and ports are there for what is missing. Other schemas keep everything throughout. |
| Schemas.UpdateSchema | cmgr/api.go:626-649 | The same for the operation: an invalid definition or an unknown name is refused and changes nothing, and with no faults nothing else is. |
| Schemas.CreateSchema | cmgr/api.go:573-620 | Refused with nothing changed, established and converged, or withdrawn without a trace of the schema; it can stay half made only after a fault. With luck and no faults a valid definition under a new name is established whenever its challenges can be built and started. |
| Schemas.PrunedKeepsDurable | cmgr/api.go:748-773 | Cleaning up and scaling down never remove a build of the new definition nor anything of another schema. |
| Schemas.CreatedStayHealthy | cmgr/api.go:718-775 | Instances created while scaling up are still whole and running at the end. |
| Schemas.ChangingOrderly | cmgr/api.go:573-775 | Every stage of creating or updating a schema is orderly: finished active builds, a schema for every build. |
| OperationLock.RunInv | cmgr/operation_lock.go:280-358 | The invariant that ties gate, main lock and in-process locks to what each thread believes it holds is kept by every step of any number of processes and threads, crashes included. |
| OperationLock.ExclusiveRunsAlone | cmgr/operation_lock.go:280-358 | While an exclusive operation is running no other operation is, in any process. |
| OperationLock.IdleHoldsNothing | cmgr/operation_lock.go:280-358 | A thread that is not in an operation holds neither gate, nor main lock, nor its manager's mutex, however its last attempt ended: entered and left, refused by a try, or failed. |
| OperationLock.OnlyDrains | cmgr/operation_lock.go:280-340 | While an exclusive waiter has the gate each step can only shrink the set of shared holders, strictly when one leaves. |
| OperationLock.DrainsOverRun | cmgr/operation_lock.go:280-340 | So it is over whole stretches of a run. |
| OperationLock.WaiterEnters | cmgr/operation_lock.go:300-358 | While an exclusive waiter has the gate, those inside when it got there need leave only once each, at any time, for it to be able to enter. |
| OperationLock.NeverStuck | cmgr/operation_lock.go:280-358 | As long as any thread is waiting or inside, some thread can take a step towards finishing. |
| OperationLock.AttemptsEnd | cmgr/operation_lock.go:280-358 | Without new requests there are only so many steps, at most seven for every thread, whoever takes them and whatever fails. |
| OperationLock.RunsEndIdle | cmgr/operation_lock.go:280-358 | And where they stop no thread waits or holds anything: every attempt ends. |
| KeyedLocks.RunInv | cmgr/docker.go:216-243 | Every interleaving of counting, locking, unlocking and discounting keeps users, entries and counts in step, although entries are deleted and made anew. |
| KeyedLocks.OneHolderPerKey | cmgr/operation_lock.go:98-121 | Two threads never hold the same key. |
| KeyedLocks.EntriesAreUsers | cmgr/docker.go:216-243 | A key has an entry exactly while somebody waits for it or holds it, the count is their number, and all of them use that entry's lock. |
| KeyedLocks.WaitersCanProceed | cmgr/docker.go:216-243 | A waiting thread can take the lock, or the thread holding it can release it. |
| Ownership.RunInv | cmgr/docker.go:1315-2171 | Every interleaving of starts, stops, hand-overs, recovery sweeps and crashes of any number of threads keeps ownership and retirement apart, owners unique, and what a start has made nobody else's. |
| Ownership.NothingLost | cmgr/api.go:389-484 | As long as no stop meets the start of its own instance, and no new row gets an id that a stop or a failed start still means to delete, every existing container is owned, retired, or the one a start has yet to record, or given up by its own thread. |
| Ownership.CarelessLoses | cmgr/api.go:445-484 | A step that is not careful in that sense can always be followed, with no fault and no crash, by a state in which a container runs that nobody answers for: the condition is exact. |
| Ownership.StopBesideStartLoses | cmgr/api.go:389-484 | The shortest such run: Stop reads an instance that Start has just opened, finds nothing to stop, and deletes its row when Start has returned. |
| Ownership.NeverOwnedAndRetired | cmgr/database.go:682-689 | No container is both owned and retired, and none has two owners. |
| Ownership.AtMostOneUnrecorded | cmgr/docker.go:1555-1566 | On careful runs every existing container is owned or retired, or is the single one a thread holding the operation lock has just created, or was left when a thread died or gave up there. |
| Ownership.LeaksAreGivenUp | cmgr/docker.go:1555-1566 | Over any run, what counts as given up was lost by its own thread: it died, or could neither record nor remove the container it had just created. |
| Ownership.LiveStartsAreSafe | cmgr/docker.go:2009-2128 | What any thread removes or forgets is never a container that another thread is still starting. |
| Ownership.SweepsRunAlone | cmgr/api.go:53-70 | While recovery sweeps no other thread is at work. |
| PortAllocation.NoPortTwice | cmgr/operation_lock.go:210-242 | Under the port lock, from the first selection until the rows are written or the start fails, no two instances have the same port, chosen or on record, whether started for the first time or replaced on the ports they have. |
| PortAllocation.OneHolderPerPort | cmgr/docker.go:1361-1626 | No port is ever held twice in Docker, among instances, the start that has the lock, and failed starts not yet cleared. |
| PortAllocation.BoundIsAccepted | cmgr/docker.go:1618-1625 | What Docker has bound the unique index never refuses, however starts interleave. |
| PortAllocation.BoundIff | cmgr/docker.go:1328-1361 | Docker binds what a start has chosen if and only if its new names have different ports and no failed start, not yet cleared by its caller, holds one of them; with at most one new name the second alone decides. |
| PortAllocation.BoundWhereNothingIsLeft | cmgr/docker.go:1328-1361 | A start with at most one new name that takes the lock when no failed start is left is never refused a port. |
| PortAllocation.RefusedUntilCleared | cmgr/docker.go:1328-1361 | The run in which it is refused: one start binds a port and fails, the next, with one new name, selects it while it is still held; once the first has been cleared the second could go on. |
| PortAllocation.ResumesIff | cmgr/docker.go:1832-1850 | A container that was paused gets its port back if and only if no failed start of its own instance holds it: no other start can have come to. |
| PortAllocation.TwoNewNamesCanClash | cmgr/docker.go:158-162 | One with two such names can, whenever a port is free, since selection reads committed rows only; Docker then refuses to bind it. |
| AllocationRuns.StartRuns | cmgr/docker.go:1315-1626 | A start that succeeds, seen through the ports it leaves held and on record, is a run of the allocation protocol: it takes the lock, keeps or selects each port, has them bound and records exactly these. |
| AllocationRuns.FailedStartRuns | cmgr/docker.go:1315-1361 | So is one that fails or dies, at each of its crash points: it takes the lock, chooses, binds and gives up with the ports still held. |
| AllocationRuns.StopsRun | cmgr/docker.go:1814-1869 | Pausing and removing containers, done or half done, are runs that only give ports back. |
| AllocationRuns.RestartRuns | cmgr/docker.go:1832-1850 | Restarting a paused container that asks for its ports is a run that opens exactly the ports on record. |
| AllocationRuns.OpenRuns | cmgr/api.go:389-400 | Adding the row of a new instance is a step that nobody else notices. |
| AllocationRuns.CloseRuns | cmgr/api.go:472-484 | Taking the rows of an instance away once none of its containers runs takes its ports off the record and no port from anybody. |
| AllocationRuns.FailedCutoverRuns | cmgr/docker.go:1719-1783 | A cutover whose start fails is a run, and once all it created is removed none of its ports is in the way of another start. |
| PortAllocation.LeadsIsRun | cmgr/docker.go:1315-1626 | Whatever steps lead to is reached by a run, so what is shown of runs holds there. |
| MigrationData.DuplicatesRemoved | cmgr/database.go:218-312 | Removing duplicates keeps the set of distinct rows, leaves no two equal rows and invents none. |
| MigrationData.UniqueAfterCleanup | cmgr/database.go:346-424 | After it, a key is unique if and only if no two different original rows share it. |
| MigrationData.ChecksSuffice | cmgr/database.go:535-554 | If the conflict checks pass all unique indexes can be created. |
| MigrationData.MigratesIff | cmgr/database.go:556-590 | The first step succeeds if and only if the original tables hold no two rows in conflict; container options of one host conflict when the rest of them differs, or the seccomp profile where there is such a column. |
| MigrationData.V1KeepsRows | cmgr/database.go:556-590 | It keeps the distinct rows of every table and makes every index possible; each container option keeps challenge, host and limits, and the seccomp profile it had, or gets the empty one where there was no such column. |
| MigrationData.ReferencesKept | cmgr/database.go:744-752 | Removing duplicates neither breaks a reference nor mends one. |
| MigrationData.V2Completes | cmgr/database.go:592-615 | The second step adds a schema row for every schema a build names and for no other (manual exactly for the manual prefix) and network options, not disabled, for every challenge without any, touching no row that exists; the checks then pass if and only if all references hold, all indexes and columns are there that it does not make itself, and no container was already both active and retired. |
| MigrationData.FirstStepUnrelated | cmgr/database.go:556-590 | The first step leaves alone what it is not about, and makes its own indexes and columns. |
| MigrationData.BothSteps | cmgr/database.go:556-615 | The two steps together keep every row and make every index possible; what they make passes the checks if and only if the original was intact: references, ownership, and the indexes no migration makes. |
| Migration.BackupDatabaseBeforeMigration | cmgr/database.go:933-1038 | On success a published backup equals the database and earlier backups are untouched; the database never changes, at any crash point. |
| Migration.MigrateDatabase | cmgr/database.go:773-798 | Each committed step is a whole migration step; it ends at the current version or stops where a step is refused, and with no faults fails exactly when one is. |
| Migration.EnsureDatabaseSchema | cmgr/database.go:1044-1101 | On success the database is at the current version, passes the checks (columns, indexes, foreign keys, invariants), and is exactly what the steps make of the original; with no faults and leave to change it succeeds exactly when that passes; without leave nothing changes. |
| Migration.InitDatabase | cmgr/database.go:1118-1246 | One startup: nothing is migrated without a latch and a published backup of the original; any failure part-way leaves the latch; a latch already there stops the startup with nothing changed; with no faults and leave to change it succeeds if and only if the database can be opened, and otherwise a required migration leaves the latch marked failed. |
| Migration.LatchStopsEverything | cmgr/database.go:829-910 | Over any history of startups and crashes, once a latch is there at the start of one, nothing ever changes again: no migration, no backup. |
| Migration.VersionsIncrease | cmgr/database.go:773-798 | A startup, crashed or not, leaves the database alone or raises its version. |
| Migration.OriginalSurvives | cmgr/database.go:933-1246 | After any history the database is the original, or the original is in a backup and the database is usable or latched. |
| Migration.OldestOpenIff | cmgr/database.go:466-771 | A version-0 database can be opened if and only if it has no two rows in conflict, no row that names one that is not there, no container both active and retired, and the four indexes no migration makes; opening keeps all rows. |
| Migration.SecondOpenIff | cmgr/database.go:592-615 | A version-1 database can be opened if and only if its references hold, no container is both active and retired, and the columns and indexes of the first step are there; what opens is what the second step makes of it. |
| Migration.OrphanIsRefused | cmgr/database.go:744-752 | A database with an image of a build that is gone is migrated by both steps and then refused by the foreign-key check. |
| Decimals.PrintedValue | cmgr/docker.go:198-203 | Printed ids are digits and parse to the id. |
| Decimals.PrintIsInjective | cmgr/docker.go:198-203 | Different ids print differently. |
| HashFrames.Stream.WriteHashFrame | cmgr/filesystem.go:208-220 | Appends exactly one frame: label, length and data. |
| HashFrames.FrameRoundTrip | cmgr/filesystem.go:208-220 | A frame followed by anything is read back with exactly the rest left over. |
| HashFrames.ChallengeChecksum | cmgr/filesystem.go:247-361 | Appends exactly the frames of one entry: path, mode, then size and content for a file, target for a link, nothing for a directory. |
| HashFrames.HashWalk | cmgr/filesystem.go:247-361 | Appends the entries in order. |
| HashFrames.ModeTextDetermines | cmgr/filesystem.go:247-361 | Different modes have different texts. |
| HashFrames.ModeTextTellsKind | cmgr/filesystem.go:247-361 | The text of a mode tells what follows it. |
| HashFrames.EntryRoundTrip | cmgr/filesystem.go:247-361 | An entry followed by anything is read back with exactly the rest left over: the encoding is prefix-free. |
| HashFrames.StreamDetermines | cmgr/filesystem.go:247-361 | Two walks that produce the same bytes are the same ordered list of path, mode, size, and content or target. |
| HashFrames.MetadataHashes | cmgr/filesystem.go:222-239 | Appends exactly the frames of metadata and path. |
| HashFrames.MetadataDetermines | cmgr/filesystem.go:222-239 | Equal metadata streams come from equal metadata and equal paths. |
| StagedNames.CheckUpdateQualifier | cmgr/docker.go:787-800 | Accepts exactly the prefix followed by 32 lower-case hexadecimal digits. |
| StagedNames.StagedImageBuildID | cmgr/docker.go:802-833 | The scan over all dashes finds exactly the id behind the one dash that ends a qualifier. |
| StagedNames.StagedArtifactBuildID | cmgr/docker.go:835-856 | The scan finds exactly the id behind the qualifier, under either prefix. |
| StagedNames.StagedImageRoundTrip | cmgr/docker.go:509-520 | A staged image name gives back its build id; with an empty host it is not recognised. |
| StagedNames.CanonicalImageIsNotStaged | cmgr/docker.go:802-833 | No canonical image name is taken for a staged one. |
| StagedNames.StagedArtifactRoundTrip | cmgr/docker.go:198-203 | A staged archive name gives back its build id. |
| StagedNames.BackupArtifactRoundTrip | cmgr/docker.go:684-687 | A backup name gives back its build id, and by the backup prefix only. |
| StagedNames.CanonicalArtifactIsNotStaged | cmgr/docker.go:835-856 | No canonical archive name is taken for a staged one. |
| StagedNames.ImageNamesDiffer | cmgr/docker.go:509-520 | Image names of different challenge, build, host or qualifier are different, so names can stand for them. |
| Operations.AddChallenges | cmgr/database_challenges.go:245-307 | Adds records only, each for a challenge not on record, and with no faults exactly those whose hosts and endpoints fit the indexes. |
| Operations.RemoveChallenges | cmgr/database_challenges.go:540-562 | All of the challenges are removed, or none; with no faults all exactly when each is on record and none has a build. |
| Operations.Update | cmgr/api.go:229-261 | Without errors the records are those on disk for everything searched, in particular in both digests, solve script and seccomp profile, and each record that needed no rebuild is untouched; the world stays orderly, and consistent at every crash point unless an undo call failed. With luck and no faults there are no errors where everything on disk fits the tables, what has vanished has no builds, and there are ports for all new names of what has to be rebuilt. |
| Operations.NothingLeftToUpdate | cmgr/api.go:152-261 | After an update without errors the next detection finds nothing added, refreshed, updated or removed. |
| Operations.Start | cmgr/api.go:367-387 | Starts an instance of a dynamic build, with luck and no faults always where images and ports are there; refuses any other build, changing nothing. |
| Operations.Stop | cmgr/api.go:445-470 | Stops an instance of a dynamic build, with no faults always; refuses any other, changing nothing. |
| Operations.NewManager | cmgr/api.go:29-73 | Opens the database, and recovers only when started exclusively; with no faults it then starts if and only if the database can be opened; what it leaves is usable and unlatched, recovery's guarantee holds of the world, and a shared startup changes nothing. |
| Operations.Execute | cmgr/api.go:29-775 | What each command's answer says is true of the worlds before and after it; with luck and no faults every command succeeds that is feasible, a condition on the world before it; every one keeps the world orderly, and consistent at every crash point unless an undo call failed. |
| Operations.Serve | cmgr/api.go:29-775 | So does every sequence of commands: each answer is true of the worlds before and after its command, with luck and no faults each command succeeds that is feasible when its turn comes, and at every crash point of the whole run the world is orderly, and consistent as long as no undo call has failed up to then. |

## Left out

- Building on request, Destroy and DeleteSchema: they reuse staging, image removal and clean-up, which are modelled; the claim that every build has a schema record would not hold of a manual build running beside a Destroy.
- Running two operations side by side on one world: `Serve` runs them one after another, and interleaving is treated where it matters in `Ownership`, `PortAllocation` and the two lock modules.
- Updates.RollbackUpdates: restoration is stated for undo calls that succeed; after one that fails the original puts the previous record back all the same, and only soundness is claimed.
- Updates.UpdateChallenge: the challenge's files do not change during the operation; the outcome of reading them, of the preflight, and of each image build is arbitrary unless the manager is fortunate.
- Updates.UpdateChallenges: whether a start succeeds whose ports are not certain beforehand; with a port range that is one with two new names (`AsksTwiceIff`).
- Building.ExecuteBuild: which files an image holds is arbitrary, and validation of a build has an arbitrary outcome unless the manager is fortunate.
- Schemas.ValidateFlagFormat: the original's limit of 128 counts bytes, here it counts characters.
- Migration.InitDatabase: which database the file holds and the world its tables describe are separate values, joined only in `Operations.NewManager`.
- Migration.EnsureDatabaseSchema: that a database with tables has the fourteen tables of version 0 with their original columns is part of what a database is here; the four columns and four tables that the migrations add, all thirteen indexes and all references are not.
- Migration.OldestOpenIff: the same holds of it; numbers and text in SQLite columns of another type are not converted, and row ids are not negative.
- Ownership.CarelessLoses: Docker's answers about networks are arbitrary; that it refuses to remove one in use narrows the window in which a stop can meet a start, but leaves the one before the network is made.
- PortAllocation.BoundIff: a port range is set, and nothing outside cmgr holds a port of it; the restoring of earlier port rows by the undo of an update is not a step, since it happens under the exclusive operation lock, and is treated in `BuildUpdates`.
- AllocationRuns.StartRuns: a start is projected as a whole, so the order in which it selected its ports is some order; handing an instance back what it had, in the undo of an update, is no step of the protocol.
- Containers.StartContainers: the port lock is a call that may fail; holding it is part of `PortAllocation`.
- OperationLock: starvation at the gate, which is an unordered lock; managers without a database file, which use the in-process mutex alone; startup's fall-back to the shared mode is two acquisitions, and a flag in `Operations.NewManager`.
- HashFrames: facts about the bytes hashed, not about SHA-256; the legacy CRC stream, ignored file names, and the check that a link stays inside the directory; a file's content is as long as its recorded size, and lengths fit in 64 bits.
- StagedNames: that the scanners accept only generated names, which they do not (a leading plus sign, a second number).
- Staged qualifiers are drawn at random; a collision with a name in use counts as a failed draw.
- Ids of image rows; when SQLite checks a constraint (all are checked at the end of a transaction).
- Containers that exit or are removed by others during an operation; a container whose creation is reported to fail, and a transaction whose commit is, count as not having happened.
- Values are passed where Go shares pointers, so aliasing of metadata structs is not modelled; the published name of a host's port is looked up when the image list is made.
- Seed and flag limits set by policy are arbitrary refusals.
- Networks beyond their creation and removal, container options, seccomp, freezing base images, solving, the HTTP server and the command line.
- Timeouts, back-off, logging and error texts.
